/** The main results, over every run from the initial state: any interleaving of
    tasks, calls of connect(), packets, timer firings, timeouts, cancellations,
    close() and losses of the transport, with any answers of the library within
    its contract. */
module Theorems {
  import opened Prelude
  import opened Engine
  import opened Glue
  import opened GlueInvariant
  import opened Binding
  import opened AttemptFacts
  import opened Driver
  import opened DriverFacts
  import opened DriverEvents
  import opened Machine
  import opened Waiting
  import opened Steps
  import opened Records
  import opened Sessions
  import opened Transports
  import opened Finality
  import opened Deadlines
  import opened Blame
  import opened Reasons
  import opened Flags

  ghost predicate ReachedBy(kind: Kind, s: Sys, now: int, acts: seq<Action>)
  {
    && 0 <= now <= TIME_LIMIT
    && LegalRun(Init(kind, now), acts) && s == Run(Init(kind, now), acts)
  }

  ghost predicate Reachable(kind: Kind, s: Sys)
  {
    exists now, acts :: ReachedBy(kind, s, now, acts)
  }

  lemma ReachableBase(kind: Kind, s: Sys)
    requires Reachable(kind, s)
    ensures Base(s)
  {
    var now, acts :| ReachedBy(kind, s, now, acts);
    InitBase(kind, now);
    RunKeepsBase(Init(kind, now), acts);
  }

  lemma {:induction false} RunKeepsKind(s: Sys, acts: seq<Action>)
    requires LegalRun(s, acts)
    ensures Run(s, acts).kind == s.kind
    decreases |acts|
  {
    if acts != [] {
      StepKeepsKind(s, acts[0]);
      RunKeepsKind(Step(s, acts[0]), acts[1..]);
    }
  }

  lemma ReachableKind(kind: Kind, s: Sys)
    requires Reachable(kind, s)
    ensures s.kind == kind
  {
    var now, acts :| ReachedBy(kind, s, now, acts);
    RunKeepsKind(Init(kind, now), acts);
  }

  lemma ReachableRecords(kind: Kind, s: Sys)
    requires Reachable(kind, s)
    ensures Base(s) && Recorded(s)
  {
    var now, acts :| ReachedBy(kind, s, now, acts);
    InitBase(kind, now);
    InitRecorded(kind, now);
    RunKeepsRecord(Init(kind, now), acts);
  }

  lemma InitRecorded(kind: Kind, now: int)
    ensures Recorded(Init(kind, now))
  {}

  lemma ReachableSessions(kind: Kind, s: Sys)
    requires Reachable(kind, s)
    ensures Base(s) && OneConnect(s) && s.kind == kind
  {
    var now, acts :| ReachedBy(kind, s, now, acts);
    InitBase(kind, now);
    RunKeepsOne(Init(kind, now), acts);
    RunKeepsKind(Init(kind, now), acts);
  }

  lemma ReachableStored(kind: Kind, s: Sys)
    requires Reachable(kind, s)
    ensures Base(s) && StoredOk(s)
  {
    var now, acts :| ReachedBy(kind, s, now, acts);
    InitBase(kind, now);
    RunKeepsStored(Init(kind, now), acts);
  }

  // ----- waiting

  /** No lost wakeup: on an open client a parked task is runnable as soon as a core has seen an event
      since the task last asked, and as soon as what it waits for is there on the core it asks. */
  lemma NoLostWakeup(kind: Kind, s: Sys, t: nat)
    requires Reachable(kind, s) && !s.d.closed && t < |s.tasks| && s.tasks[t].phase.Parked?
    ensures Equipped(s, t)
    ensures s.tasks[t].triedAt != s.events ==> Resumable(s, t)
    ensures Ripe(CoreOf(s, t), OpOf(s.tasks[t])) ==> Resumable(s, t)
  {
    ReachableBase(kind, s);
    assert PhaseOk(s, t);
    var f := s.tasks[t].phase.future;
    assert f in s.d.waiters && s.owners[f] == t;
    if s.d.futures[f].Pending? { assert Asleep(s, s.tasks[s.owners[f]]); }
  }

  /** _waiters lists each awaited future once, and nothing else. */
  lemma WaitersAreExact(kind: Kind, s: Sys)
    requires Reachable(kind, s)
    ensures NoDuplicates(s.d.waiters)
    ensures forall f :: f in s.d.waiters <==>
      exists t :: 0 <= t < |s.tasks| && s.tasks[t].phase.Parked? && s.tasks[t].phase.future == f
    ensures (forall t :: 0 <= t < |s.tasks| ==> !s.tasks[t].phase.Parked?) ==> s.d.waiters == []
  {
    ReachableBase(kind, s);
    HeadIsMember(s.d.waiters);
    forall f | f in s.d.waiters
      ensures exists t :: 0 <= t < |s.tasks| && s.tasks[t].phase.Parked? && s.tasks[t].phase.future == f
    {
      assert s.tasks[s.owners[f]].phase.future == f;
    }
  }

  // ----- effects

  /** A write that returned was accepted exactly once, with its own payload; a write that ended in a
      timeout, a closed connection, a cancellation or any other exception never was. */
  lemma WriteExactlyOnce(kind: Kind, s: Sys, t: nat)
    requires Reachable(kind, s) && t < |s.tasks| && s.tasks[t].call.WriteCall? && s.tasks[t].phase.Finished?
    ensures var k := s.tasks[t];
      if k.phase.outcome.Returned?
      then exists i :: 0 <= i < |s.log| && WroteIt(s.log[i], t, k)
                       && forall j :: 0 <= j < |s.log| && s.log[j].task == t ==> j == i
      else forall j :: 0 <= j < |s.log| ==> s.log[j].task != t
  {
    ReachableRecords(kind, s);
    assert TaskOk(s.kind, s.d.now, s.tasks[t]);
    if Returns(s.tasks[t]) {
      WriteReturned(s, t);
    } else {
      NothingGranted(s, t);
    }
  }

  predicate WroteIt(x: Entry, t: nat, k: Task)
    requires k.call.WriteCall?
  {
    x.task == t && x.stage == 0 && Some(x.on) == k.on
    && x.op == Write(k.call.id, k.call.data, k.call.fin) && x.value == Done
  }

  lemma WriteReturned(s: Sys, t: nat)
    requires Recorded(s) && t < |s.tasks| && s.tasks[t].call.WriteCall? && |s.tasks[t].grants| == 1
    ensures var k := s.tasks[t];
      && k.grants[0] < |s.log| && WroteIt(s.log[k.grants[0]], t, k)
      && forall j :: 0 <= j < |s.log| && s.log[j].task == t ==> j == k.grants[0]
  {
    assert RecordTrue(s, s.tasks[t].grants[0]);
  }

  lemma NothingGranted(s: Sys, t: nat)
    requires Indexed(s) && t < |s.tasks| && s.tasks[t].grants == []
    ensures forall j :: 0 <= j < |s.log| ==> s.log[j].task != t
  {}

  /** On every core, each stream, also one that the library has dropped by now, has carried exactly the
      accepted writes, payload and FIN, in acceptance order; what reads returned, followed by what is (or was
      left) unread, is what arrived. Every stream that a call wrote or read is among them. The datagrams
      taken are those returned. */
  lemma StreamsCarryTheRecord(kind: Kind, s: Sys, g: nat)
    requires Reachable(kind, s) && g < Cores(s)
    ensures forall id :: Had(StreamsOf(CoreAt(s, g)), id) ==>
      var stream := Last(StreamsOf(CoreAt(s, g)), id);
      stream.sent == WrittenBy(s.log, g, id) && stream.received == ReadBy(s.log, g, id) + stream.unread
    ensures forall i :: 0 <= i < |s.log| && s.log[i].on == g && (s.log[i].op.Write? || s.log[i].op.Read?) ==>
      Had(StreamsOf(CoreAt(s, g)), s.log[i].op.id)
    ensures CoreAt(s, g).past.taken == TakenBy(s.log, g)
  {
    ReachableRecords(kind, s);
    assert Accounted(CoreAt(s, g), s.log, g) && CoreOk(CoreAt(s, g));
  }

  /** When a read returned FIN, everything its stream ever received had been read by then, and reads
      after it returned no further byte; this whether the library still keeps the stream or dropped it,
      in that very call or later. */
  lemma FinMeansEverything(kind: Kind, s: Sys, t: nat)
    requires Reachable(kind, s) && t < |s.tasks| && s.tasks[t].call.ReadCall? && Returns(s.tasks[t])
    requires s.tasks[t].phase.outcome.value.Chunk? && s.tasks[t].phase.outcome.value.fin && Equipped(s, t)
    ensures var id := s.tasks[t].call.id;
      && Had(StreamsOf(CoreOf(s, t)), id)
      && var stream := Last(StreamsOf(CoreOf(s, t)), id);
      && stream.finReceived && stream.unread == []
      && exists i :: 0 <= i < |s.log| && s.log[i].task == t
                     && stream.received == ReadBy(s.log[..i + 1], s.tasks[t].on.value, id)
                                        == ReadBy(s.log, s.tasks[t].on.value, id)
  {
    ReachableRecords(kind, s);
    var i := ReturnedRead(s, t);
    var g := s.tasks[t].on.value;
    assert Accounted(CoreAt(s, g), s.log, g) && CoreOk(CoreAt(s, g));
    ReadToTheEnd(CoreAt(s, g), s.log, g, i);
  }

  /** The record of a read that returned. */
  lemma ReturnedRead(s: Sys, t: nat) returns (i: nat)
    requires Base(s) && Recorded(s) && t < |s.tasks| && s.tasks[t].call.ReadCall? && Returns(s.tasks[t])
    ensures i < |s.log| && s.log[i].task == t && Some(s.log[i].on) == s.tasks[t].on
    ensures s.log[i].op.Read? && s.log[i].op.id == s.tasks[t].call.id
    ensures s.log[i].value == s.tasks[t].phase.outcome.value
  {
    assert TaskOk(s.kind, s.d.now, s.tasks[t]) && ReturnTrue(s, t);
    i := s.tasks[t].grants[0];
    assert RecordTrue(s, i);
  }

  lemma ReadToTheEnd(c: Core, log: seq<Entry>, g: nat, i: nat)
    requires StreamsOk(c) && Accounted(c, log, g) && i < |log| && Ends(log[i], g)
    ensures Had(StreamsOf(c), log[i].op.id)
    ensures var stream := Last(StreamsOf(c), log[i].op.id);
      && stream.finReceived && stream.unread == []
      && stream.received == ReadBy(log[..i + 1], g, log[i].op.id) == ReadBy(log, g, log[i].op.id)
  {
    ReadByGrows(log, i + 1, g, log[i].op.id);
    assert FinAt(StreamsOf(c), log, g, i);
    var stream := Last(StreamsOf(c), log[i].op.id);
    assert |stream.unread| == 0;
    assert stream.delivered + [] == stream.delivered;
  }

  lemma {:induction false} ReadByGrows(log: seq<Entry>, n: nat, g: nat, id: StreamId)
    requires n <= |log|
    ensures |ReadBy(log[..n], g, id)| <= |ReadBy(log, g, id)|
  {
    if n < |log| {
      assert log[..|log| - 1][..n] == log[..n];
      ReadByGrows(log[..|log| - 1], n, g, id);
    } else {
      assert log[..n] == log;
    }
  }

  /** Each stream that the peer opened is handed out by at most one accept. */
  lemma AcceptedOnce(kind: Kind, s: Sys, i: nat, j: nat)
    requires Reachable(kind, s) && i < |s.log| && j < |s.log| && s.log[i].on == s.log[j].on
    requires s.log[i].op.Accept? && s.log[j].op.Accept? && s.log[i].value == s.log[j].value
    ensures i == j
  {
    ReachableRecords(kind, s);
    assert RecordTrue(s, i) && RecordTrue(s, j);
  }

  /** On every core that receives datagrams, they reach receive_datagram() callers once each and in order
      of arrival, for both clients. */
  lemma DatagramsArriveOnce(kind: Kind, s: Sys, g: nat)
    requires Reachable(kind, s) && g < Cores(s) && Watching(CoreAt(s, g))
    ensures CoreAt(s, g).past.arrived == TakenBy(s.log, g) + CoreAt(s, g).visitor.datagrams
  {
    ReachableRecords(kind, s);
    assert Accounted(CoreAt(s, g), s.log, g) && CoreOk(CoreAt(s, g));
  }

  // ----- timer

  /** At most one timer handle is live, it is the one in _timer, and a closed client has none. */
  lemma OneLiveTimer(kind: Kind, s: Sys)
    requires Reachable(kind, s)
    ensures forall h :: h in s.d.handles ==> s.d.timer == Some(h)
    ensures s.d.closed ==> s.d.handles == map[]
  {
    ReachableBase(kind, s);
  }

  /** Whenever a timer fires, in any run, the client is open, the timer is the one it holds, and the
      earliest alarm it was set for is due. If the core's alarms are still those, that alarm is consumed:
      no firing is in vain. Whatever they are, the next timer is at least a millisecond away. */
  lemma TimersFireForAReason(kind: Kind, s: Sys, handle: nat, e: Effect)
    requires Reachable(kind, s) && Legal(s, TimerFires(handle, e)) && s.d.core.Some?
    ensures !s.d.closed && s.d.timer == Some(handle)
    ensures s.d.armed.alarms != {} && s.d.armed.at <= s.d.now && Earliest(s.d.armed.alarms) <= s.d.now
    ensures var d' := Step(s, TimerFires(handle, e)).d;
      && d'.core.Some?
      && (s.d.core.value.engine.alarms == s.d.armed.alarms ==>
            Earliest(s.d.armed.alarms) in s.d.core.value.engine.alarms
            && Earliest(s.d.armed.alarms) !in d'.core.value.engine.alarms)
      && (!d'.closed && d'.timer.Some? ==>
            d'.timer.value in d'.handles && d'.handles[d'.timer.value] >= s.d.now + 1000)
  {
    ReachableBase(kind, s);
    TimerMakesProgress(s.d, handle, e);
    assert Step(s, TimerFires(handle, e)).d == OnTimeout(s.d, handle, e);
  }

  // ----- transports

  /** Outbound conservation, however often cores and transports were replaced: the packets handed to all
      transports, in order, are those fetched from all cores, in order; what was fetched from a core,
      followed by what it queues, is what the library wrote to it; and each transport has seen exactly
      what was handed to it, and after that at most one closing. */
  lemma PacketsAreConserved(kind: Kind, s: Sys)
    requires Reachable(kind, s)
    ensures HandedTo(Stored(s)) == DrawnFrom(AllCores(s))
    ensures forall g :: 0 <= g < Cores(s) ==>
      CoreAt(s, g).past.popped + CoreAt(s, g).queue == CoreAt(s, g).past.written
    ensures forall i :: 0 <= i < |Stored(s)| ==>
      var t := Stored(s)[i];
      t.log == Sends(t.handed) || (s.d.closed && t.log == Sends(t.handed) + [CloseTransport])
  {
    ReachableStored(kind, s);
    if s.d.transport.Some? {
      assert Stored(s)[..|s.replaced|] == s.replaced;
    } else {
      assert Stored(s) == s.replaced;
      assert HandedTo(s.replaced) + [] == HandedTo(s.replaced);
    }
    if s.d.core.Some? {
      assert AllCores(s)[..|s.retired|] == s.retired;
    } else {
      assert AllCores(s) == s.retired;
      assert DrawnFrom(s.retired) + [] == DrawnFrom(s.retired);
    }
    forall g | 0 <= g < Cores(s) ensures Conserved(CoreAt(s, g)) { assert CoreOk(CoreAt(s, g)); }
    forall i | 0 <= i < |Stored(s)|
      ensures Stored(s)[i].log == Sends(Stored(s)[i].handed)
              || (s.d.closed && Stored(s)[i].log == Sends(Stored(s)[i].handed) + [CloseTransport])
    {
      LogOf(s, i);
    }
  }

  function AllCores(s: Sys): seq<Core>
  {
    s.retired + if s.d.core.Some? then [s.d.core.value] else []
  }

  /** The log of one stored transport. */
  lemma LogOf(s: Sys, i: nat)
    requires Base(s) && StoredOk(s) && i < |Stored(s)|
    ensures var t := Stored(s)[i];
      t.log == Sends(t.handed) + (if s.d.closed && t.storedOpen && !t.lost then [CloseTransport] else [])
    ensures s.d.closed || Stored(s)[i].storedOpen
  {
    var t := Stored(s)[i];
    if i < |s.replaced| {
      assert t == s.replaced[i] && ReplacedOk(t, s.d.closed);
    } else {
      assert t == s.d.transport.value;
    }
    assert Sends(t.handed) + [] == Sends(t.handed);
  }

  /** "Every transport a client stored is closed once the client is" is false. In every reachable closed
      state a stored transport has been closed if and only if the client was open when it stored it and
      did not store another in its place while still open; an open client has closed none. */
  lemma TransportClosedIff(kind: Kind, s: Sys, i: nat)
    requires Reachable(kind, s) && i < |Stored(s)|
    ensures CloseTransport in Stored(s)[i].log <==>
      s.d.closed && Stored(s)[i].storedOpen && !Stored(s)[i].lost
  {
    ReachableStored(kind, s);
    LogOf(s, i);
    var t := Stored(s)[i];
    var sent := Sends(t.handed);
    assert CloseTransport !in sent;
    if s.d.closed && t.storedOpen && !t.lost {
      assert t.log[|sent|] == CloseTransport;
    }
  }

  /** A replaced transport, and any transport of a closed client, is never touched again. */
  lemma TransportsFreeze(kind: Kind, s: Sys, acts: seq<Action>, i: nat)
    requires Reachable(kind, s) && LegalRun(s, acts) && i < |Stored(s)| && (s.d.closed || i < |s.replaced|)
    ensures i < |Stored(Run(s, acts))| && Stored(Run(s, acts))[i] == Stored(s)[i]
  {
    ReachableBase(kind, s);
    if s.d.closed {
      RunStaysClosed(s, acts);
    } else {
      RunKeepsReplaced(s, acts);
      assert Run(s, acts).replaced[i] == s.replaced[i];
    }
  }

  // ----- the cached flag

  /** "While the client is open its cached flag is what the core says" is false. In every reachable open
      state the two agree if and only if the client is not one that was connected and whose core was
      replaced by connect() but not asked to start yet. */
  lemma CachedFlagAgreesIff(kind: Kind, s: Sys)
    requires Reachable(kind, s) && !s.d.closed
    ensures FlagAgrees(s.d) <==> !(s.d.wasConnected && s.d.core.Some? && !s.d.core.value.engine.session)
  {
    ReachableBase(kind, s);
  }

  /** Of all steps of an open client whose flag agrees, exactly those break the agreement in which connect()
      makes a new core although the client is connected. Whether or not it agreed before, after such a making
      it does exactly if the client is not connected. */
  lemma OnlyReconnectBreaksTheFlag(kind: Kind, s: Sys, act: Action)
    requires Reachable(kind, s) && !s.d.closed && Legal(s, act)
    ensures FlagAgrees(s.d) ==>
      ((!Step(s, act).d.closed && !FlagAgrees(Step(s, act).d))
       <==> (act.Lookup? && act.failure.None? && s.d.wasConnected))
    ensures act.Lookup? && act.failure.None? ==> (FlagAgrees(Step(s, act).d) <==> !s.d.wasConnected)
  {
    ReachableBase(kind, s);
    StepKeepsBase(s, act);
    if act.Lookup? && act.failure.None? {
      assert Step(s, act) == Enlist(s, act.t, NewCore(s.kind, act.serverName));
    } else if FlagAgrees(s.d) {
      StepLooks(s, act);
      AgreementStays(s.d, Step(s, act).d);
    }
  }

  /** "A start that succeeds is never taken for a failure" is false when calls of connect() overlap: the
      driver looks at its present core, which may be another call's. On a client that was never connected
      a successful start closes it if and only if the started core is not the present one and a text stands
      on the present one; that text is then the reason. */
  lemma StartMistakenIff(kind: Kind, s: Sys, t: nat, initialized: bool, attempting: bool, e: Effect)
    requires Reachable(kind, s) && !s.d.closed && !s.d.wasConnected
    requires Legal(s, Endpoint(t, None, initialized, attempting, e))
    requires !PyStart(CoreOf(s, t), initialized, attempting, e).1.Raise?
    ensures var d' := Step(s, Endpoint(t, None, initialized, attempting, e)).d;
      && s.d.core.Some?
      && (d'.closed <==> s.tasks[t].on != Some(|s.retired|) && s.d.core.value.lastError != "")
      && (d'.closed ==> d'.closeReason == s.d.core.value.lastError)
  {
    ReachableBase(kind, s);
    assert CoreOk(CoreOf(s, t)) && s.d.core.Some?;
    StartedVerdict(s, t, initialized, attempting, e);
  }

  lemma StartedVerdict(s: Sys, t: nat, initialized: bool, attempting: bool, e: Effect)
    requires Equipped(s, t) && CoreOk(CoreOf(s, t)) && s.d.core.Some? && SessionOk(s.d.core.value) && Agrees(s.d)
    requires !s.d.closed && !s.d.wasConnected && StartEffectOk(CoreOf(s, t), e)
    requires !PyStart(CoreOf(s, t), initialized, attempting, e).1.Raise?
    ensures var d' := DoEndpoint(s, t, None, initialized, attempting, e).d;
      && (d'.closed <==> s.tasks[t].on != Some(|s.retired|) && s.d.core.value.lastError != "")
      && (d'.closed ==> d'.closeReason == s.d.core.value.lastError)
  {
    var c := PyStart(CoreOf(s, t), initialized, attempting, e).0;
    BegunShape(s, t, initialized, attempting, e);
    StartNotMistaken(CoreOf(s, t), initialized, attempting, e);
    BegunVerdict(SetCore(s, s.tasks[t].on.value, c).d, true);
    if s.tasks[t].on.value < |s.retired| {
      TextDecides(s.d);
    } else {
      assert SetCore(s, s.tasks[t].on.value, c).d == s.d.(core := Some(c));
    }
  }

  /** A second connect() on a connected client is taken for a lost connection: as soon as its own core
      was started, the client is torn down unless that core is connected by then. */
  lemma SecondHandshakeCloses(kind: Kind, s: Sys, t: nat, initialized: bool, attempting: bool, e: Effect)
    requires Reachable(kind, s) && !s.d.closed && s.d.wasConnected
    requires Legal(s, Endpoint(t, None, initialized, attempting, e)) && s.tasks[t].on == Some(|s.retired|)
    ensures var (c, r) := PyStart(CoreOf(s, t), initialized, attempting, e);
      Step(s, Endpoint(t, None, initialized, attempting, e)).d.closed <==> r.Raise? || !IsConnected(c)
  {
    RestartCloses(s, t, initialized, attempting, e);
  }

  lemma RestartCloses(s: Sys, t: nat, initialized: bool, attempting: bool, e: Effect)
    requires Equipped(s, t) && !s.d.closed && s.d.wasConnected && s.tasks[t].on == Some(|s.retired|)
    ensures var (c, r) := PyStart(CoreOf(s, t), initialized, attempting, e);
      DoEndpoint(s, t, None, initialized, attempting, e).d.closed <==> r.Raise? || !IsConnected(c)
  {
    var (c, r) := PyStart(CoreOf(s, t), initialized, attempting, e);
    BegunShape(s, t, initialized, attempting, e);
    BegunVerdict(s.d.(core := Some(c)), !r.Raise?);
    assert SetCore(s, |s.retired|, c).d == s.d.(core := Some(c));
  }

  // ----- closing

  /** Teardown is final over every continuation: the first reason stays, no timer lives, every transport
      stays as it is, and one that turns up later sees nothing. */
  lemma TeardownIsFinal(kind: Kind, s: Sys, acts: seq<Action>)
    requires Reachable(kind, s) && s.d.closed && LegalRun(s, acts)
    ensures StaysClosed(s.d, Run(s, acts).d) && LateOnly(s, Run(s, acts))
  {
    ReachableBase(kind, s);
    RunStaysClosed(s, acts);
  }

  /** Every parked wait is released by teardown, and the parked waits run out. */
  lemma TeardownReleases(kind: Kind, s: Sys, acts: seq<Action>)
    requires Reachable(kind, s) && s.d.closed && LegalRun(s, acts)
    ensures forall t :: 0 <= t < |s.tasks| && s.tasks[t].phase.Parked? ==> Resumable(s, t)
    ensures Parkeds(Run(s, acts).tasks) + Resumptions(acts) == Parkeds(s.tasks)
  {
    ReachableBase(kind, s);
    RunDrains(s, acts);
  }

  /** The reason of a closed client was given by the step that closed it: for a packet or a timeout what that
      event came to, for close() and a loss their own, otherwise "connect failed", "connection closed" or the
      text that stood on the present core. */
  lemma ReasonHasASource(kind: Kind, s: Sys, now: int, acts: seq<Action>)
    requires ReachedBy(kind, s, now, acts) && s.d.closed
    ensures ClosedFor(Init(kind, now), acts, s.d.closeReason)
  {
    InitBase(kind, now);
    RunCloses(Init(kind, now), acts);
  }

  /** The exception a call ended with points at its cause, and a call that returned had nothing wrong
      with its arguments. */
  lemma OutcomesAreJustified(kind: Kind, s: Sys, t: nat)
    requires Reachable(kind, s) && t < |s.tasks| && s.tasks[t].phase.Finished?
    ensures Returns(s.tasks[t]) ==> !BadCall(kind, s.tasks[t].call)
    ensures Blames(kind, s.d.closed, s.tasks[t])
  {
    var now, acts :| ReachedBy(kind, s, now, acts);
    InitBase(kind, now);
    RunKeepsBlame(Init(kind, now), acts);
    ReachableBase(kind, s);
    ReachableKind(kind, s);
    assert TaskBlames(s.kind, s.d.closed, s.tasks[t]) && TaskOk(s.kind, s.d.now, s.tasks[t]);
  }

  // ----- requests

  predicate SubmittedBy(x: Entry, t: nat) { x.task == t && x.op.Submit? }

  /** A request that returned got the response to the stream of its own single submit, made of the headers
      and the body that completed on that stream, with the status those headers give; and no two requests on
      one core, whatever their interleaving, were ever given the same stream. */
  lemma EachRequestItsOwnReply(kind: Kind, s: Sys, t: nat)
    requires Reachable(kind, s) && t < |s.tasks| && s.tasks[t].call.RequestCall? && Returns(s.tasks[t])
    ensures var k := s.tasks[t];
      && Equipped(s, t) && k.stream in CoreOf(s, t).past.completed
      && k.phase.outcome.value == Reply(Answering(k.stream, CoreOf(s, t).past.completed[k.stream]))
      && exists i :: 0 <= i < |s.log| && SubmittedBy(s.log[i], t) && s.log[i].value == Issued(k.stream)
    ensures forall i, j :: 0 <= i < j < |s.log| && SubmittedBy(s.log[i], t) ==> !SubmittedBy(s.log[j], t)
    ensures forall u :: 0 <= u < |s.tasks| && u != t && s.tasks[u].call.RequestCall? && Returns(s.tasks[u])
                        && s.tasks[u].on == s.tasks[t].on ==>
      s.tasks[u].stream != s.tasks[t].stream
      && s.tasks[u].phase.outcome.value != s.tasks[t].phase.outcome.value
  {
    ReachableRecords(kind, s);
    ReturnedRequest(s, t);
    forall u | 0 <= u < |s.tasks| && u != t && s.tasks[u].call.RequestCall? && Returns(s.tasks[u])
               && s.tasks[u].on == s.tasks[t].on
      ensures s.tasks[u].stream != s.tasks[t].stream
      ensures s.tasks[u].phase.outcome.value != s.tasks[t].phase.outcome.value
    {
      ReturnedRequest(s, u);
      assert s.tasks[t].grants[0] != s.tasks[u].grants[0];
    }
  }

  lemma ReturnedRequest(s: Sys, t: nat)
    requires Base(s) && Recorded(s) && t < |s.tasks| && s.tasks[t].call.RequestCall? && Returns(s.tasks[t])
    ensures var k := s.tasks[t];
      && |k.grants| == 2 && k.grants[0] < |s.log| && Some(s.log[k.grants[0]].on) == k.on
      && SubmittedBy(s.log[k.grants[0]], t) && s.log[k.grants[0]].value == Issued(k.stream)
      && Equipped(s, t) && k.stream in CoreOf(s, t).past.completed
      && k.phase.outcome.value == Reply(Answering(k.stream, CoreOf(s, t).past.completed[k.stream]))
    ensures forall i :: 0 <= i < |s.log| && SubmittedBy(s.log[i], t) ==> i == s.tasks[t].grants[0]
  {
    var k := s.tasks[t];
    assert TaskOk(s.kind, s.d.now, k) && ReturnTrue(s, t);
    assert RecordTrue(s, k.grants[0]) && RecordTrue(s, k.grants[1]);
    forall i | 0 <= i < |s.log| && SubmittedBy(s.log[i], t) ensures i == k.grants[0] { OneSubmit(s, t, i); }
  }

  lemma OneSubmit(s: Sys, t: nat, i: nat)
    requires Recorded(s) && t < |s.tasks| && s.tasks[t].call.RequestCall?
    requires i < |s.log| && SubmittedBy(s.log[i], t)
    ensures s.tasks[t].grants != [] && i == s.tasks[t].grants[0]
  {
    assert RecordTrue(s, i);
  }

  /** Every HTTP/3 core has sent exactly the requests of the submits it accepted, each with its caller's
      headers, body and FIN, in order of acceptance. */
  lemma RequestsAreTheSubmits(s: Sys, g: nat)
    requires Reachable(H3, s) && g < Cores(s)
    ensures CoreAt(s, g).past.requests == RequestsBy(s.log, g)
    ensures forall i :: 0 <= i < |s.log| && s.log[i].op.Submit? ==>
      s.log[i].task < |s.tasks| && s.log[i].op == OpAt(s.tasks[s.log[i].task].call, 0, 0)
  {
    ReachableRecords(H3, s);
    ReachableKind(H3, s);
    AccountedRequests(s, g);
    forall i | 0 <= i < |s.log| && s.log[i].op.Submit?
      ensures s.log[i].task < |s.tasks| && s.log[i].op == OpAt(s.tasks[s.log[i].task].call, 0, 0)
    {
      SubmitIsAsked(s, i);
    }
  }

  lemma AccountedRequests(s: Sys, g: nat)
    requires CoresOk(s) && Recorded(s) && g < Cores(s) && s.kind.H3?
    ensures CoreAt(s, g).past.requests == RequestsBy(s.log, g)
  {
    assert Accounted(CoreAt(s, g), s.log, g) && CoreAt(s, g).kind == H3;
  }

  /** A recorded submit is what its task was called for. */
  lemma SubmitIsAsked(s: Sys, i: nat)
    requires Indexed(s) && Truthful(s) && i < |s.log| && s.log[i].op.Submit?
    ensures s.log[i].task < |s.tasks| && s.log[i].op == OpAt(s.tasks[s.log[i].task].call, 0, 0)
  {
    assert RecordTrue(s, i);
  }

  /** On every core, completed responses are the disjoint union of those collected and those waiting,
      each kept under the stream it answers, with the headers and the body it completed with. */
  lemma ResponsesPartition(kind: Kind, s: Sys, g: nat)
    requires Reachable(kind, s) && g < Cores(s)
    ensures var c := CoreAt(s, g);
      && c.past.completed.Keys == c.past.collected + c.responses.Keys && c.past.collected !! c.responses.Keys
      && forall id :: id in c.responses ==> c.responses[id] == Answering(id, c.past.completed[id])
  {
    ReachableBase(kind, s);
    assert CoreOk(CoreAt(s, g));
  }

  // ----- WebTransport set-up

  /** Every WebTransport core has sent at most one CONNECT, with the pseudo-headers of extended CONNECT for
      the path of the connect() call that made it; a connect() that returned has sent exactly one. */
  lemma ConnectIsSentOnce(s: Sys, t: nat)
    requires Reachable(Wt, s) && t < |s.tasks| && s.tasks[t].call.Connect? && Equipped(s, t)
    ensures var requests := CoreOf(s, t).past.requests;
      && |requests| <= 1 && (Returns(s.tasks[t]) ==> |requests| == 1)
      && forall i :: 0 <= i < |requests| ==> IsConnect(requests[i], CoreOf(s, t).serverName, s.tasks[t].call.path)
  {
    ReachableSessions(Wt, s);
    assert PhaseOk(s, t) && TaskOk(s.kind, s.d.now, s.tasks[t]);
    assert ProgressOk(CoreOf(s, t), s.tasks[t]);
  }

  predicate Made(s: Sys, t: nat, g: nat)
  {
    t < |s.tasks| && s.tasks[t].call.Connect? && s.tasks[t].on == Some(g)
  }

  /** Every core was made by one connect() call, and no two calls share one. */
  lemma EveryCoreHasItsConnect(kind: Kind, s: Sys, g: nat)
    requires Reachable(kind, s) && g < Cores(s)
    ensures exists t :: Made(s, t, g)
    ensures forall t, u :: Made(s, t, g) && Made(s, u, g) ==> t == u
  {
    ReachableBase(kind, s);
    assert Made(s, s.starters[g], g);
    forall t, u | Made(s, t, g) && Made(s, u, g) ensures t == u {
      assert PhaseOk(s, t) && PhaseOk(s, u);
    }
  }

  /** On every core the three parts of an open session are there together or not at all: the connect flag,
      the session object and the visitor; and they are there only on a WebTransport core whose handshake was
      started and that has sent its one CONNECT. */
  lemma SessionIsWhole(kind: Kind, s: Sys, g: nat)
    requires Reachable(kind, s) && g < Cores(s)
    ensures var c := CoreAt(s, g);
      && (c.connectRequested <==> c.hasTransport) && (c.hasTransport <==> c.hasVisitor)
      && (c.connectRequested ==> kind.Wt? && c.engine.session && |c.past.requests| == 1)
  {
    ReachableSessions(kind, s);
    assert CoreOk(CoreAt(s, g)) && CoreAt(s, g).kind == kind;
    if kind.Wt? { assert ProgressOk(CoreAt(s, g), s.tasks[s.starters[g]]); }
  }

  /** The turn in which a WebTransport connect() returns has just seen the session ready. */
  lemma ConnectReturnsReady(s: Sys, t: nat, a: Answer, e: Effect)
    requires Base(s) && TurnOk(s, t, a, e) && s.kind.Wt? && s.tasks[t].call.Connect?
    requires t < |Turn(s, t, a, e).tasks| && Returns(Turn(s, t, a, e).tasks[t])
    ensures IsSessionReady(CoreOf(s, t)) && s.tasks[t].stage == 2
  {
    assert TaskOk(s.kind, s.d.now, s.tasks[t]);
    TurnTurns(s, t, a, e);
    if !IsSessionReady(CoreOf(s, t)) { NotReadyNotReturned(s, t, a, e); }
  }

  lemma NotReadyNotReturned(s: Sys, t: nat, a: Answer, e: Effect)
    requires TurnOk(s, t, a, e) && OpOf(s.tasks[t]).AwaitSession? && !IsSessionReady(CoreOf(s, t))
    ensures t < |Turn(s, t, a, e).tasks| ==> !Returns(Turn(s, t, a, e).tasks[t])
  {
    assert Attempt(CoreOf(s, t), AwaitSession, a, e) == (CoreOf(s, t), NoneYet);
  }

  // ----- deadlines

  /** A TimeoutError is never premature: at least one attempt failed, and the deadline had passed. */
  lemma TimeoutIsHonest(kind: Kind, s: Sys, t: nat)
    requires Reachable(kind, s) && t < |s.tasks| && s.tasks[t].phase.Finished?
    requires s.tasks[t].phase.outcome.Failed? && s.tasks[t].phase.outcome.exc.TimeoutError?
    ensures var k := s.tasks[t]; k.tries >= 1 && k.timeout.Some? && k.phase.at >= k.since + k.timeout.value
  {
    ReachableBase(kind, s);
    assert TaskOk(s.kind, s.d.now, s.tasks[t]);
  }

  /** However often it was woken in vain, a parked wait with a timeout still has its own wake-up,
      exactly at its deadline. */
  lemma ParkedWaitsHaveAWakeup(kind: Kind, s: Sys, t: nat)
    requires Reachable(kind, s) && t < |s.tasks| && s.tasks[t].phase.Parked? && s.tasks[t].timeout.Some?
    ensures s.tasks[t].phase.wakeAt == Some(s.tasks[t].since + s.tasks[t].timeout.value)
  {
    ReachableBase(kind, s);
    ParkedUntil(s.kind, s.d.now, s.tasks[t]);
  }

  lemma ParkedUntil(kind: Kind, now: int, k: Task)
    requires TaskOk(kind, now, k) && k.phase.Parked? && k.timeout.Some?
    ensures k.phase.wakeAt == Some(k.since + k.timeout.value)
  {}

  ghost predicate PromptlyReachedBy(kind: Kind, s: Sys, now: int, acts: seq<Action>)
  {
    ReachedBy(kind, s, now, acts) && PromptRun(Init(kind, now), acts)
  }

  /** With prompt resumption a call that began to wait ends within one allowance (its timeout, or nothing if
      that is negative) per stage: T in general, 2T for an HTTP/3 request, 3T for the waits of a WebTransport
      connect(). One that never began failed in set-up, before any attempt. */
  lemma StagedDeadlines(kind: Kind, s: Sys, now: int, acts: seq<Action>, t: nat)
    requires PromptlyReachedBy(kind, s, now, acts)
    requires t < |s.tasks| && s.tasks[t].phase.Finished? && s.tasks[t].timeout.Some?
    ensures EndedInTime(kind, s.tasks[t])
  {
    InitBase(kind, now);
    InitOnTime(kind, now);
    RunKeepsTime(Init(kind, now), acts);
    assert Reachable(kind, s);
    ReachableBase(kind, s);
    ReachableKind(kind, s);
    assert OnTime(s.d.now, s.tasks[t]) && TaskOk(s.kind, s.d.now, s.tasks[t]);
    EndedOnTime(kind, s.d.now, s.tasks[t]);
  }

  predicate EndedInTime(kind: Kind, k: Task)
    requires k.phase.Finished? && k.timeout.Some?
  {
    if k.began.Some? then k.phase.at <= k.began.value + Stages(kind, k.call) * Allowance(k)
    else k.phase.outcome.Failed? && k.stage == 0 && k.tries == 0
  }

  lemma InitOnTime(kind: Kind, now: int)
    ensures AllOnTime(Init(kind, now))
  {}

  lemma EndedOnTime(kind: Kind, now: int, k: Task)
    requires OnTime(now, k) && TaskOk(kind, now, k) && k.phase.Finished? && k.timeout.Some?
    ensures EndedInTime(kind, k)
  {}
}
