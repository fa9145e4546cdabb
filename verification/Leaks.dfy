/** Promises the program does not keep, each with a run from a fresh client on which it
    fails: transports that are never closed, a cached flag that contradicts the core,
    a handshake that succeeds and is taken for a failure. */
module Leaks {
  import opened Prelude
  import opened Engine
  import opened Glue
  import opened Binding
  import opened Driver
  import opened DriverEvents
  import opened Machine
  import opened Waiting
  import opened Steps
  import opened Transports
  import opened Finality
  import opened Theorems

  // ----- in general

  /** An endpoint that arrives at a closed client is stored, and its transport stays open for ever. */
  lemma LateEndpointLeaks(kind: Kind, s: Sys, t: nat, initialized: bool, attempting: bool, e: Effect, acts: seq<Action>)
    requires Reachable(kind, s) && s.d.closed && Legal(s, Endpoint(t, None, initialized, attempting, e))
    requires LegalRun(Step(s, Endpoint(t, None, initialized, attempting, e)), acts)
    ensures var s' := Run(Step(s, Endpoint(t, None, initialized, attempting, e)), acts);
      |Stored(s)| < |Stored(s')| && CloseTransport !in Stored(s')[|Stored(s)|].log
  {
    ReachableBase(kind, s);
    var act := Endpoint(t, None, initialized, attempting, e);
    var s1 := Step(s, act);
    StepKeepsBase(s, act);
    EndpointStaysClosed(s, t, initialized, attempting, e);
    EndpointAdds(s, t, initialized, attempting, e);
    RunStaysClosed(s1, acts);
    assert Stored(Run(s1, acts))[|Stored(s)|] == Stored(s1)[|Stored(s)|];
  }

  lemma EndpointAdds(s: Sys, t: nat, initialized: bool, attempting: bool, e: Effect)
    requires Equipped(s, t)
    ensures |Stored(DoEndpoint(s, t, None, initialized, attempting, e))| == |Stored(s)| + 1
  {
    var (c, r) := PyStart(CoreOf(s, t), initialized, attempting, e);
    AttachReplaces(SetCore(s, s.tasks[t].on.value, c), !r.Raise?);
    EndpointParts(s, t, initialized, attempting, e);
  }

  /** close() while connect() awaits the UDP endpoint makes such an endpoint of it. */
  lemma CloseMakesItLate(kind: Kind, s: Sys, t: nat, e: Effect)
    requires Reachable(kind, s) && t < |s.tasks| && s.tasks[t].phase.Attaching? && Legal(s, CloseCall(e))
    ensures Step(s, CloseCall(e)).d.closed && Step(s, CloseCall(e)).tasks == s.tasks
  {
    CallbackShape(s, CloseCall(e));
  }

  /** An endpoint that arrives at an open client which has a transport replaces it, and the transport
      replaced, though it was stored while the client was open, stays open for ever. */
  lemma ReplacedTransportLeaks(kind: Kind, s: Sys, t: nat, initialized: bool, attempting: bool, e: Effect,
                               acts: seq<Action>)
    requires Reachable(kind, s) && !s.d.closed && s.d.transport.Some?
    requires Legal(s, Endpoint(t, None, initialized, attempting, e))
    requires LegalRun(Step(s, Endpoint(t, None, initialized, attempting, e)), acts)
    ensures var s' := Run(Step(s, Endpoint(t, None, initialized, attempting, e)), acts);
      |s.replaced| < |s'.replaced| && s'.replaced[|s.replaced|].storedOpen
      && CloseTransport !in s'.replaced[|s.replaced|].log
  {
    ReachableStored(kind, s);
    var act := Endpoint(t, None, initialized, attempting, e);
    var s1 := Step(s, act);
    StepKeepsBase(s, act);
    StepKeepsStored(s, act);
    EndpointReplaces(s, t, initialized, attempting, e);
    assert ReplacedOk(s1.replaced[|s.replaced|], s1.d.closed);
    NoClosingAmong(s1.replaced[|s.replaced|]);
    RunKeepsReplaced(s1, acts);
  }

  lemma NoClosingAmong(t: Transport)
    requires ReplacedOk(t, true) || ReplacedOk(t, false)
    requires t.lost
    ensures CloseTransport !in t.log
  {
    assert Sends(t.handed) + [] == Sends(t.handed);
  }

  lemma EndpointReplaces(s: Sys, t: nat, initialized: bool, attempting: bool, e: Effect)
    requires Equipped(s, t) && s.d.transport.Some?
    ensures DoEndpoint(s, t, None, initialized, attempting, e).replaced
      == s.replaced + [s.d.transport.value.(lost := !s.d.closed)]
  {
    var (c, r) := PyStart(CoreOf(s, t), initialized, attempting, e);
    AttachReplaces(SetCore(s, s.tasks[t].on.value, c), !r.Raise?);
    EndpointParts(s, t, initialized, attempting, e);
  }

  // ----- on a run

  const DOWN := Effect([], [], {}, false)
  const UP := Effect([], [SessionReady], {}, true)
  const STILL := Effect([], [], {}, true)
  const ANSWER := Answer(true, Accepted, None, 0, Success, true, true, true)

  const CALL := Invoke(Connect("/", []), None, 0)
  const CLOSE := CloseCall(DOWN)

  const SETUP: seq<Action> := [CALL, Lookup(0, None, "host")]
  const LATE: seq<Action> := [CLOSE, Endpoint(0, None, true, true, DOWN)]
  const CONNECT: seq<Action> := [Endpoint(0, None, true, true, UP), Continue(0, ANSWER, STILL)]
  const AGAIN: seq<Action> := [CALL, Lookup(1, None, "host")]

  // a packet and then the first call's endpoint, while two calls await theirs
  const STRAY: seq<Action> := [Packet([0], DOWN), Endpoint(0, None, true, true, UP)]

  lemma Prepend(s: Sys, act: Action, acts: seq<Action>)
    requires Legal(s, act) && LegalRun(Step(s, act), acts)
    ensures LegalRun(s, [act] + acts) && Run(s, [act] + acts) == Run(Step(s, act), acts)
  {
    assert ([act] + acts)[0] == act && ([act] + acts)[1..] == acts;
  }

  lemma TwoSteps(s: Sys, s1: Sys, a: Action, b: Action)
    requires Legal(s, a) && Step(s, a) == s1 && Legal(s1, b)
    ensures LegalRun(s, [a, b]) && Run(s, [a, b]) == Step(s1, b)
  {
    Prepend(s1, b, []);
    Prepend(s, a, [b] + []);
    assert [a, b] == [a] + ([b] + []);
  }

  lemma {:induction false} Follow(s: Sys, first: seq<Action>, rest: seq<Action>)
    requires LegalRun(s, first) && LegalRun(Run(s, first), rest)
    ensures LegalRun(s, first + rest) && Run(s, first + rest) == Run(Run(s, first), rest)
    decreases |first|
  {
    if first == [] {
      assert first + rest == rest;
    } else {
      HeadAndRest(first, rest);
      Follow(Step(s, first[0]), first[1..], rest);
      Prepend(s, first[0], first[1..] + rest);
    }
  }

  lemma HeadAndRest<T>(first: seq<T>, rest: seq<T>)
    requires first != []
    ensures first + rest == [first[0]] + (first[1..] + rest)
  {}

  /** A first call of connect(), up to the await of the endpoint. */
  ghost predicate Awaiting(s: Sys)
  {
    && |s.tasks| == 1 && s.tasks[0].call == Connect("/", []) && s.tasks[0].phase.Attaching? && s.tasks[0].on == Some(0)
    && s.tasks[0].stage == 0 && s.running.None? && s.retired == [] && s.replaced == []
    && s.kind.Raw? && s.d.core == Some(NewCore(Raw, "host")) && !s.d.closed && s.d.closeReason == ""
    && s.d.transport.None? && s.d.timer.None? && s.d.waiters == [] && !s.d.wasConnected
  }

  lemma SetUp() returns (s: Sys)
    ensures LegalRun(Init(Raw, 0), SETUP) && s == Run(Init(Raw, 0), SETUP) && Awaiting(s) && Reachable(Raw, s)
  {
    var s1 := Step(Init(Raw, 0), CALL);
    assert s1 == DoInvoke(Init(Raw, 0), Connect("/", []), None, 0);
    s := Step(s1, Lookup(0, None, "host"));
    assert s == Enlist(s1, 0, NewCore(Raw, "host"));
    TwoSteps(Init(Raw, 0), s1, CALL, Lookup(0, None, "host"));
    assert ReachedBy(Raw, s, 0, SETUP);
  }

  /** connect(), then close() while the UDP endpoint is being created, then the endpoint arrives: its
      transport is stored and not closed. */
  lemma LateEndpointRuns()
    ensures LegalRun(Init(Raw, 0), SETUP + LATE)
    ensures var s := Run(Init(Raw, 0), SETUP + LATE);
      s.d.closed && |Stored(s)| == 1 && !Stored(s)[0].storedOpen && CloseTransport !in Stored(s)[0].log
  {
    var s := SetUp();
    LateRuns(s);
    Follow(Init(Raw, 0), SETUP, LATE);
  }

  lemma LateRuns(s: Sys)
    requires Awaiting(s) && Reachable(Raw, s)
    ensures LegalRun(s, LATE)
    ensures var s' := Run(s, LATE);
      s'.d.closed && |Stored(s')| == 1 && !Stored(s')[0].storedOpen && CloseTransport !in Stored(s')[0].log
  {
    ClosingIsLegal(s);
    var s1 := Step(s, CLOSE);
    TwoSteps(s, s1, CLOSE, Endpoint(0, None, true, true, DOWN));
    ReachableBase(Raw, s);
    StepKeepsBase(s, CLOSE);
    LateIsStored(s1);
    assert Step(s1, Endpoint(0, None, true, true, DOWN)) == DoEndpoint(s1, 0, None, true, true, DOWN);
  }

  lemma LateIsStored(s: Sys)
    requires Base(s) && s.d.closed && Equipped(s, 0) && Stored(s) == []
    ensures var s' := DoEndpoint(s, 0, None, true, true, DOWN);
      s'.d.closed && Stored(s') == [Transport([], [], false, false)]
  {
    EndpointStaysClosed(s, 0, true, true, DOWN);
    EndpointAdds(s, 0, true, true, DOWN);
    OneLate(s, DoEndpoint(s, 0, None, true, true, DOWN));
  }

  lemma OneLate(s: Sys, s': Sys)
    requires LateOnly(s, s') && Stored(s) == [] && |Stored(s')| == 1
    ensures Stored(s') == [Transport([], [], false, false)]
  {}

  lemma ClosingIsLegal(s: Sys)
    requires Awaiting(s)
    ensures Legal(s, CLOSE) && Legal(Step(s, CLOSE), Endpoint(0, None, true, true, DOWN))
    ensures Step(s, CLOSE).d.closed && Stored(Step(s, CLOSE)) == []
  {
    assert Step(s, CLOSE).d == CloseClient(s.d, DOWN);
    assert CloseClient(s.d, DOWN).core == Some(NewCore(Raw, "host"));
  }

  /** The handshake done, connect() about to ask. */
  ghost predicate Connected(s: Sys)
  {
    && |s.tasks| == 1 && s.tasks[0].call == Connect("/", []) && s.tasks[0].on == Some(0) && s.tasks[0].stage == 0
    && s.retired == [] && s.replaced == [] && s.kind.Raw?
    && s.d.core.Some? && IsConnected(s.d.core.value) && s.d.core.value.kind.Raw?
    && !s.d.closed && s.d.wasConnected && s.d.transport.Some? && s.d.transport.value.storedOpen
  }

  lemma HandshakeSucceeds(s: Sys)
    requires Awaiting(s)
    ensures Legal(s, Endpoint(0, None, true, true, UP))
    ensures var s' := Step(s, Endpoint(0, None, true, true, UP));
      Connected(s') && s'.tasks[0].phase.Ready? && s'.running == Some(0)
  {
    var s' := Step(s, Endpoint(0, None, true, true, UP));
    assert s' == DoEndpoint(s, 0, None, true, true, UP);
    var (c, r) := PyStart(NewCore(Raw, "host"), true, true, UP);
    StartUp();
    var d1 := s.d.(core := Some(c));
    BegunShape(s, 0, true, true, UP);
    assert SetCore(s, 0, c).d == d1;
    BegunUp(d1);
  }

  lemma StartUp()
    ensures var (c, r) := PyStart(NewCore(Raw, "host"), true, true, UP);
      && r == Value(()) && c.kind.Raw? && IsConnected(c) && c.queue == [] && c.engine.alarms == {} && c.lastError == ""
  {
    assert UP.events[1..] == [];
    assert Apply(NewCore(Raw, "host").(engine := NewCore(Raw, "host").engine.(session := true)), UP).visitor.ready;
  }

  lemma BegunUp(d: Client)
    requires d.core.Some? && d.core.value.kind.Raw? && IsConnected(d.core.value) && d.core.value.engine.alarms == {}
    requires !d.closed && d.transport.None?
    ensures var d' := Begun(d, true);
      && !d'.closed && d'.wasConnected && d'.core.Some? && d'.core.value.kind.Raw? && IsConnected(d'.core.value)
      && d'.transport.Some? && d'.transport.value.storedOpen
  {}

  lemma ConnectReturns(s: Sys)
    requires Connected(s) && s.tasks[0].phase.Ready? && s.running == Some(0)
    ensures Legal(s, Continue(0, ANSWER, STILL))
    ensures var s' := Step(s, Continue(0, ANSWER, STILL));
      && |s'.tasks| == 1 && s'.tasks[0].phase == Finished(Outcome.Returned(Done), s.d.now) && s'.running.None?
      && s'.retired == [] && s'.replaced == [] && s'.d == s.d && s'.kind == s.kind
  {
    assert Attempt(s.d.core.value, AwaitConnected, ANSWER, STILL) == (s.d.core.value, Value(Done));
    assert Step(s, Continue(0, ANSWER, STILL)) == Grant(s, 0, s.d.core.value, Done);
  }

  /** An open client whose flag says connected while its core, a new one, is not; connect() has returned
      before, and the endpoint of a second call may arrive. */
  ghost predicate Contradicted(s: Sys)
  {
    && !s.d.closed && s.d.wasConnected && s.d.core.Some? && !IsConnected(s.d.core.value)
    && s.tasks != [] && s.tasks[0].phase.Finished? && s.tasks[0].phase.outcome.Returned?
    && Legal(s, Endpoint(1, None, true, true, DOWN)) && s.d.transport.Some? && s.d.transport.value.storedOpen
  }

  /** connect() returns, and is called again as far as its new core. */
  lemma ReconnectRuns()
    ensures LegalRun(Init(Raw, 0), SETUP + (CONNECT + AGAIN))
    ensures Contradicted(Run(Init(Raw, 0), SETUP + (CONNECT + AGAIN)))
  {
    var s := SetUp();
    ConnectRuns(s);
    AgainRuns(Run(s, CONNECT));
    Follow(s, CONNECT, AGAIN);
    Follow(Init(Raw, 0), SETUP, CONNECT + AGAIN);
  }

  ghost predicate Back(s: Sys)
  {
    && |s.tasks| == 1 && s.tasks[0].phase.Finished? && s.tasks[0].phase.outcome.Returned? && s.running.None?
    && s.kind.Raw? && s.retired == [] && s.d.core.Some? && !s.d.closed && s.d.wasConnected
    && s.d.transport.Some? && s.d.transport.value.storedOpen
  }

  lemma ConnectRuns(s: Sys)
    requires Awaiting(s)
    ensures LegalRun(s, CONNECT) && Back(Run(s, CONNECT))
  {
    HandshakeSucceeds(s);
    var s1 := Step(s, Endpoint(0, None, true, true, UP));
    ConnectReturns(s1);
    TwoSteps(s, s1, Endpoint(0, None, true, true, UP), Continue(0, ANSWER, STILL));
  }

  lemma AgainRuns(s: Sys)
    requires Back(s)
    ensures LegalRun(s, AGAIN) && Contradicted(Run(s, AGAIN))
  {
    CallsAgain(s);
    TwoSteps(s, Step(s, CALL), CALL, Lookup(1, None, "host"));
  }

  lemma CallsAgain(s: Sys)
    requires Back(s)
    ensures Legal(s, CALL) && Legal(Step(s, CALL), Lookup(1, None, "host"))
    ensures var s' := Step(Step(s, CALL), Lookup(1, None, "host"));
      && !s'.d.closed && s'.d.wasConnected && s'.d.core == Some(NewCore(Raw, "host")) && s'.d.transport == s.d.transport
      && |s'.tasks| == 2 && s'.tasks[0] == s.tasks[0] && Legal(s', Endpoint(1, None, true, true, DOWN))
  {
    var s1 := Step(s, CALL);
    assert s1 == DoInvoke(s, Connect("/", []), None, 0);
    assert Step(s1, Lookup(1, None, "host")) == Enlist(s1, 1, NewCore(Raw, "host"));
  }

  /** The endpoint of the second call arrives: the first transport, stored while the client was open, is
      replaced and stays open for ever, whatever happens next. */
  lemma ReconnectLeaks(acts: seq<Action>)
    requires LegalRun(Init(Raw, 0), SETUP + (CONNECT + AGAIN))
    requires var s := Run(Init(Raw, 0), SETUP + (CONNECT + AGAIN));
      && Legal(s, Endpoint(1, None, true, true, DOWN))
      && LegalRun(Step(s, Endpoint(1, None, true, true, DOWN)), acts)
    ensures var s := Run(Init(Raw, 0), SETUP + (CONNECT + AGAIN));
      var s' := Run(Step(s, Endpoint(1, None, true, true, DOWN)), acts);
      exists i :: 0 <= i < |s'.replaced| && s'.replaced[i].storedOpen && CloseTransport !in s'.replaced[i].log
  {
    ReconnectRuns();
    var s := Run(Init(Raw, 0), SETUP + (CONNECT + AGAIN));
    assert ReachedBy(Raw, s, 0, SETUP + (CONNECT + AGAIN));
    ReplacedTransportLeaks(Raw, s, 1, true, true, DOWN, acts);
  }

  // ----- a success taken for a failure

  /** Two calls of connect() await their endpoints; nothing has gone wrong. */
  ghost predicate TwoAwait(s: Sys)
  {
    && |s.tasks| == 2 && s.tasks[0].phase.Attaching? && s.tasks[0].on == Some(0) && s.running.None?
    && s.kind.Raw? && s.retired == [NewCore(Raw, "host")] && s.d.core == Some(NewCore(Raw, "host"))
    && !s.d.closed && s.d.closeReason == "" && !s.d.wasConnected && s.d.transport.None?
  }

  lemma BothAwait(s: Sys)
    requires Awaiting(s)
    ensures LegalRun(s, AGAIN) && TwoAwait(Run(s, AGAIN))
  {
    var s1 := Step(s, CALL);
    assert s1 == DoInvoke(s, Connect("/", []), None, 0);
    var s2 := Step(s1, Lookup(1, None, "host"));
    assert s2 == Enlist(s1, 1, NewCore(Raw, "host"));
    TwoSteps(s, s1, CALL, Lookup(1, None, "host"));
  }

  /** A packet meets the second call's core, which was not started: it leaves a text there. */
  lemma PacketLeavesText(s: Sys)
    requires TwoAwait(s)
    ensures Legal(s, Packet([0], DOWN))
    ensures Step(s, Packet([0], DOWN)) ==
      s.(d := s.d.(core := Some(SetError(NewCore(Raw, "host"), "handshake has not been started"))))
  {
    var c := NewCore(Raw, "host");
    assert PyReceivePacket(c, [0], DOWN).0 == SetError(c, "handshake has not been started");
    assert Step(s, Packet([0], DOWN)) == DoPacket(s, [0], DOWN);
  }

  /** The first call's handshake starts and succeeds at once; the text of the other core closes the client. */
  lemma SuccessCloses(s: Sys, s1: Sys)
    requires TwoAwait(s)
    requires s1 == s.(d := s.d.(core := Some(SetError(NewCore(Raw, "host"), "handshake has not been started"))))
    ensures Legal(s1, Endpoint(0, None, true, true, UP))
    ensures Mistaken(Step(s1, Endpoint(0, None, true, true, UP)))
  {
    var s' := Step(s1, Endpoint(0, None, true, true, UP));
    assert s' == DoEndpoint(s1, 0, None, true, true, UP);
    StartUp();
    BegunShape(s1, 0, true, true, UP);
    BegunVerdict(s1.d, true);
    assert s'.retired == [PyStart(NewCore(Raw, "host"), true, true, UP).0];
  }

  ghost predicate Mistaken(s: Sys)
  {
    && s.d.closed && s.d.closeReason == "handshake has not been started"
    && |s.retired| == 1 && IsConnected(s.retired[0])
    && |s.tasks| == 2 && s.tasks[0].phase.Ready? && s.tasks[0].on == Some(0)
  }

  /** Overlapping calls of connect(): the first one's core is connected, and the client is torn down
      because of a text on the second one's. */
  lemma MistakenRuns()
    ensures LegalRun(Init(Raw, 0), SETUP + (AGAIN + STRAY))
    ensures Mistaken(Run(Init(Raw, 0), SETUP + (AGAIN + STRAY)))
  {
    var s := SetUp();
    BothAwait(s);
    var s2 := Run(s, AGAIN);
    PacketLeavesText(s2);
    var s3 := Step(s2, Packet([0], DOWN));
    SuccessCloses(s2, s3);
    TwoSteps(s2, s3, Packet([0], DOWN), Endpoint(0, None, true, true, UP));
    Follow(s, AGAIN, STRAY);
    Follow(Init(Raw, 0), SETUP, AGAIN + STRAY);
  }
}
