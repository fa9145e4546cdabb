/** Waiter-list integrity, no lost wakeup and the shape of every task, kept by
    each piece of a step. */
module Waiting {
  import opened Prelude
  import opened Engine
  import opened Glue
  import opened GlueInvariant
  import opened Binding
  import opened AttemptFacts
  import opened Driver
  import opened DriverFacts
  import opened DriverEvents
  import opened Machine

  /** _waiters has no duplicates and is exactly the set of futures that some task is awaiting. */
  ghost predicate WaitersOk(s: Sys)
  {
    && NoDuplicates(s.d.waiters)
    && (forall f :: f in s.d.waiters ==>
          f in s.owners && s.owners[f] < |s.tasks|
          && s.tasks[s.owners[f]].phase.Parked? && s.tasks[s.owners[f]].phase.future == f)
    && (forall t :: 0 <= t < |s.tasks| && s.tasks[t].phase.Parked? ==>
          s.tasks[t].phase.future in s.d.waiters
          && s.tasks[t].phase.future in s.owners && s.owners[s.tasks[t].phase.future] == t)
  }

  /** A task that sleeps on an open client has asked since the last event of the core, and what it
      waits for is still not there. */
  ghost predicate Asleep(s: Sys, k: Task)
  {
    && k.on.Some? && k.on.value < Cores(s) && k.triedAt == s.events && k.interrupt.Calm?
    && !Ripe(CoreAt(s, k.on.value), OpOf(k))
  }

  ghost predicate SleepOk(s: Sys)
    requires WaitersOk(s) && FuturesKnown(s.d)
  {
    !s.d.closed ==>
      forall f :: f in s.d.waiters && s.d.futures[f].Pending? ==> Asleep(s, s.tasks[s.owners[f]])
  }

  ghost predicate TaskOk(kind: Kind, now: int, k: Task)
  {
    && |k.grants| == k.stage
    && match k.phase
       case Resolving => k.call.Connect? && k.stage == 0 && k.tries == 0
       case Attaching => k.call.Connect? && k.stage == 0 && k.tries == 0
       case Ready => k.stage < Stages(kind, k.call)
       case Parked(_, wakeAt) =>
         && k.stage < Stages(kind, k.call) && k.tries >= 1 && wakeAt == Deadline(k)
         && (k.interrupt.Expired? ==> wakeAt.Some? && wakeAt.value <= now)
       case Finished(Returned(_), _) => k.stage == Stages(kind, k.call)
       case Finished(Failed(exc, _), at) =>
         && k.stage < Stages(kind, k.call)
         && (exc.TimeoutError? ==> k.tries >= 1 && Deadline(k).Some? && Deadline(k).value <= at)
  }

  ghost predicate TasksOk(s: Sys)
  {
    forall t :: 0 <= t < |s.tasks| ==> TaskOk(s.kind, s.d.now, s.tasks[t])
  }

  /** A task that can ask has a core to ask; one that has yet to start a handshake has a core of its
      own that was not started; every core has one connect() call that made it. */
  ghost predicate PhaseOk(s: Sys, t: nat)
    requires t < |s.tasks|
  {
    var k := s.tasks[t];
    && (k.phase.Ready? ==> s.running == Some(t))
    && (k.phase.Ready? || k.phase.Parked? ==> k.on.Some?)
    && (k.phase.Resolving? ==> k.on.None?)
    && (k.phase.Attaching? ==> Equipped(s, t) && !CoreOf(s, t).engine.session)
    && (k.on.Some? ==> k.on.value < Cores(s))
    && (k.call.Connect? && k.on.Some? ==> k.on.value < |s.starters| && s.starters[k.on.value] == t)
    && CallFits(s.kind, k.call)
  }

  ghost predicate PhasesOk(s: Sys)
  {
    && (s.running.Some? ==> s.running.value < |s.tasks| && s.tasks[s.running.value].phase.Ready?)
    && (forall t :: 0 <= t < |s.tasks| ==> PhaseOk(s, t))
  }

  /** Every core is well, made by the connect() call recorded for it. */
  ghost predicate CoresOk(s: Sys)
  {
    && (s.retired != [] ==> s.d.core.Some?)
    && |s.starters| == Cores(s)
    && (forall g :: 0 <= g < Cores(s) ==> CoreOk(CoreAt(s, g)) && CoreAt(s, g).kind == s.kind)
    && (forall g :: 0 <= g < |s.starters| ==>
          s.starters[g] < |s.tasks| && s.tasks[s.starters[g]].call.Connect? && s.tasks[s.starters[g]].on == Some(g))
  }

  ghost predicate Base(s: Sys)
  {
    && ClientOk(s.d) && Agrees(s.d) && CoresOk(s) && PhasesOk(s) && TasksOk(s) && WaitersOk(s) && SleepOk(s)
  }

  lemma InitBase(kind: Kind, now: int)
    requires 0 <= now <= TIME_LIMIT
    ensures Base(Init(kind, now))
  {}

  /** What a driver method must have done to keep everybody served: either every waiter is awake,
      or no core has seen an event and the client's core offers nothing new. */
  ghost predicate MayMove(s: Sys, d: Client, events: nat)
  {
    && ClientOk(d) && Agrees(d) && SameLoop(s.d, d)
    && (d.core.Some? <==> s.d.core.Some?)
    && (d.core.Some? ==> d.core.value.kind == s.d.core.value.kind
                         && d.core.value.engine.session == s.d.core.value.engine.session)
    && (AllAwake(d) || (events == s.events && d.closed == s.d.closed
                        && (d.core.Some? ==> Calmer(s.d.core.value, d.core.value))))
  }

  /** Nobody's justification for sleeping is gone. */
  lemma StillAsleep(s: Sys, s': Sys)
    requires WaitersOk(s) && FuturesKnown(s.d) && SleepOk(s) && WaitersOk(s') && FuturesKnown(s'.d)
    requires s'.tasks == s.tasks && s'.owners == s.owners && s'.d.waiters == s.d.waiters && s'.events == s.events
    requires s'.d.closed == s.d.closed && Cores(s') == Cores(s)
    requires forall f :: f in s.d.waiters && s'.d.futures[f].Pending? ==> s.d.futures[f].Pending?
    requires forall g :: 0 <= g < Cores(s) ==> CoreAt(s', g) == CoreAt(s, g) || Calmer(CoreAt(s, g), CoreAt(s', g))
    ensures SleepOk(s')
  {
    if !s'.d.closed {
      forall f | f in s'.d.waiters && s'.d.futures[f].Pending? ensures Asleep(s', s'.tasks[s'.owners[f]]) {
        var k := s.tasks[s.owners[f]];
        assert Asleep(s, k);
        if Ripe(CoreAt(s', k.on.value), OpOf(k)) && CoreAt(s', k.on.value) != CoreAt(s, k.on.value) {
          CalmerNeverRipens(CoreAt(s, k.on.value), CoreAt(s', k.on.value), OpOf(k));
        }
      }
    }
  }

  lemma AwakeSleeps(s: Sys)
    requires WaitersOk(s) && FuturesOk(s.d) && AllAwake(s.d)
    ensures SleepOk(s)
  {}

  /** The cores and what tasks know of them, when only the client's own core changed. */
  lemma DriverMovesCores(s: Sys, d: Client, events: nat)
    requires CoresOk(s) && PhasesOk(s) && MayMove(s, d, events)
    ensures CoresOk(s.(d := d, events := events)) && PhasesOk(s.(d := d, events := events))
  {
    var s' := s.(d := d, events := events);
    assert Cores(s') == Cores(s);
    forall g | 0 <= g < Cores(s)
      ensures CoreOk(CoreAt(s', g)) && CoreAt(s', g).kind == s.kind
      ensures CoreAt(s', g).engine.session == CoreAt(s, g).engine.session
    {
      assert CoreOk(CoreAt(s, g)) && CoreAt(s, g).kind == s.kind;
    }
    forall t | 0 <= t < |s.tasks| ensures PhaseOk(s', t) { assert PhaseOk(s, t); }
  }

  /** A driver method ran: nobody's task changed. */
  lemma DriverMoves(s: Sys, d: Client, events: nat)
    requires Base(s) && MayMove(s, d, events)
    ensures Base(s.(d := d, events := events))
  {
    DriverMovesCores(s, d, events);
    DriverMovesSleep(s, d, events);
  }

  lemma DriverMovesSleep(s: Sys, d: Client, events: nat)
    requires Base(s) && MayMove(s, d, events)
    ensures WaitersOk(s.(d := d, events := events)) && SleepOk(s.(d := d, events := events))
  {
    var s' := s.(d := d, events := events);
    if AllAwake(d) {
      AwakeSleeps(s');
    } else {
      StillAsleep(s, s');
    }
  }

  ghost predicate SameCores(s: Sys, s': Sys)
  {
    s'.kind == s.kind && s'.retired == s.retired && s'.starters == s.starters && s'.d.core == s.d.core
  }

  /** One task changes: the table of tasks stays in order. */
  lemma TaskTable(s: Sys, s': Sys, t: nat)
    requires CoresOk(s) && PhasesOk(s) && TasksOk(s) && SameCores(s, s') && s'.d.now == s.d.now
    requires t < |s.tasks| == |s'.tasks| && s'.tasks == s.tasks[t := s'.tasks[t]]
    requires s'.tasks[t].call == s.tasks[t].call && s'.tasks[t].on == s.tasks[t].on
    requires TaskOk(s.kind, s.d.now, s'.tasks[t]) && !SetupPhase(s'.tasks[t].phase)
    requires s'.tasks[t].phase.Ready? || s'.tasks[t].phase.Parked? ==> s.tasks[t].on.Some?
    requires s.running.None? || s.running == Some(t)
    requires s'.running == (if s'.tasks[t].phase.Ready? then Some(t) else None)
    ensures CoresOk(s') && PhasesOk(s') && TasksOk(s')
  {
    assert forall g :: 0 <= g < Cores(s) ==> CoreAt(s', g) == CoreAt(s, g);
    forall u | 0 <= u < |s'.tasks| ensures PhaseOk(s', u) {
      assert PhaseOk(s, u);
    }
  }

  /** A task that is not parked changes, and stays unparked. */
  lemma TaskMoves(s: Sys, t: nat, k: Task, running: Option<nat>)
    requires Base(s) && t < |s.tasks| && !s.tasks[t].phase.Parked? && !k.phase.Parked? && !SetupPhase(k.phase)
    requires k.call == s.tasks[t].call && k.on == s.tasks[t].on && TaskOk(s.kind, s.d.now, k)
    requires s.running.None? || s.running == Some(t)
    requires running == (if k.phase.Ready? then Some(t) else None)
    requires k.phase.Ready? ==> k.on.Some?
    ensures Base(SetTask(s, t, k).(running := running))
  {
    TaskTable(s, SetTask(s, t, k).(running := running), t);
    TaskWaits(s, t, k, running);
  }

  lemma TaskWaits(s: Sys, t: nat, k: Task, running: Option<nat>)
    requires WaitersOk(s) && FuturesKnown(s.d) && SleepOk(s)
    requires t < |s.tasks| && !s.tasks[t].phase.Parked? && !k.phase.Parked?
    ensures var s' := SetTask(s, t, k).(running := running); WaitersOk(s') && SleepOk(s')
  {
    assert forall f :: f in s.d.waiters ==> s.owners[f] != t;
    OthersSleep(s, SetTask(s, t, k).(running := running));
  }

  /** The tasks that sleep are as before, and so is all they know. */
  lemma OthersSleep(s: Sys, s': Sys)
    requires WaitersOk(s) && FuturesKnown(s.d) && SleepOk(s) && WaitersOk(s') && FuturesKnown(s'.d)
    requires s'.events == s.events && s'.d.closed == s.d.closed && Cores(s) <= Cores(s')
    requires forall g :: 0 <= g < Cores(s) ==> CoreAt(s', g) == CoreAt(s, g)
    requires forall f :: f in s'.d.waiters && s'.d.futures[f].Pending? ==>
      f in s.d.waiters && s.d.futures[f].Pending? && s'.tasks[s'.owners[f]] == s.tasks[s.owners[f]]
    ensures SleepOk(s')
  {
    if !s'.d.closed {
      forall f | f in s'.d.waiters && s'.d.futures[f].Pending? ensures Asleep(s', s'.tasks[s'.owners[f]]) {
        assert Asleep(s, s.tasks[s.owners[f]]);
      }
    }
  }

  lemma FinishKeeps(s: Sys, t: nat, outcome: Outcome)
    requires Base(s) && t < |s.tasks| && !s.tasks[t].phase.Parked? && !s.tasks[t].phase.Finished?
    requires s.running.None? || s.running == Some(t)
    requires outcome.Failed?
    requires outcome.exc.TimeoutError? ==>
      s.tasks[t].tries >= 1 && Deadline(s.tasks[t]).Some? && Deadline(s.tasks[t]).value <= s.d.now
    ensures Base(Finish(s, t, outcome))
  {
    StagesPositive();
    TaskMoves(s, t, s.tasks[t].(phase := Finished(outcome, s.d.now)), None);
  }

  lemma StagesPositive()
    ensures forall kind, call :: Stages(kind, call) >= 1
  {}

  lemma FailKeeps(s: Sys, t: nat, exc: Exc, message: string)
    requires Base(s) && t < |s.tasks| && s.tasks[t].phase.Ready?
    requires exc.TimeoutError? ==>
      s.tasks[t].tries >= 1 && Deadline(s.tasks[t]).Some? && Deadline(s.tasks[t]).value <= s.d.now
    ensures Base(Fail(s, t, exc, message))
    ensures s.d.closed ==> Fail(s, t, exc, message).d == s.d
  {
    assert PhaseOk(s, t);
    if s.tasks[t].call.Connect? {
      TeardownKeeps(s.d, "connect failed");
      var d := Teardown(s.d, "connect failed");
      DriverMoves(s, d, s.events);
      var s1 := s.(d := d);
      assert s1 == s.(d := d, events := s.events);
      FinishKeeps(s1, t, Failed(exc, message));
    } else {
      FinishKeeps(s, t, Failed(exc, message));
    }
  }

  /** The driver's own invariants do not depend on who waits for what. */
  lemma ParkClient(d: Client)
    requires ClientOk(d) && !d.closed
    ensures var f := d.nextFuture;
      ClientOk(d.(waiters := d.waiters + [f], futures := d.futures[f := Pending], nextFuture := f + 1))
      && f !in d.waiters
  {}

  lemma UnparkClient(d: Client, f: nat)
    requires ClientOk(d) && NoDuplicates(d.waiters)
    ensures ClientOk(d.(waiters := Remove(d.waiters, f)))
  {
    RemoveKeeps(d.waiters, f);
  }

  lemma InterruptClient(d: Client, f: nat)
    requires ClientOk(d) && f in d.futures
    ensures ClientOk(d.(futures := d.futures[f := if d.futures[f].Pending? then Cancelled else d.futures[f]]))
  {}

  /** Parking right after a fruitless attempt: the newcomer sleeps legitimately. */
  lemma ParkTable(s: Sys, t: nat)
    requires CoresOk(s) && PhasesOk(s) && TasksOk(s) && Equipped(s, t) && s.tasks[t].phase.Ready?
    requires s.tasks[t].tries >= 1
    ensures CoresOk(Park(s, t)) && PhasesOk(Park(s, t)) && TasksOk(Park(s, t))
  {
    assert PhaseOk(s, t) && TaskOk(s.kind, s.d.now, s.tasks[t]);
    TaskTable(s, Park(s, t), t);
  }

  lemma ParkKeeps(s: Sys, t: nat)
    requires Base(s) && Equipped(s, t) && s.tasks[t].phase.Ready? && !s.d.closed && s.tasks[t].tries >= 1
    requires s.tasks[t].triedAt == s.events && !Ripe(CoreOf(s, t), OpOf(s.tasks[t]))
    ensures Base(Park(s, t))
  {
    var s' := Park(s, t);
    var f := s.d.nextFuture;
    ParkClient(s.d);
    ParkTable(s, t);
    ParkWaits(s, t);
    ParkSleeps(s, t);
  }

  lemma ParkWaits(s: Sys, t: nat)
    requires WaitersOk(s) && t < |s.tasks| && s.tasks[t].phase.Ready? && s.d.nextFuture !in s.d.waiters
    ensures WaitersOk(Park(s, t))
  {
    assert NoDuplicates(Park(s, t).d.waiters);
    assert forall g :: g in s.d.waiters ==> s.owners[g] != t;
  }

  lemma ParkSleeps(s: Sys, t: nat)
    requires Base(s) && Equipped(s, t) && s.tasks[t].phase.Ready? && !s.d.closed
    requires s.tasks[t].triedAt == s.events && !Ripe(CoreOf(s, t), OpOf(s.tasks[t]))
    requires WaitersOk(Park(s, t)) && FuturesKnown(Park(s, t).d)
    ensures SleepOk(Park(s, t))
  {
    var s' := Park(s, t);
    var f := s.d.nextFuture;
    forall g | g in s'.d.waiters && s'.d.futures[g].Pending? ensures Asleep(s', s'.tasks[s'.owners[g]]) {
      if g != f {
        assert g in s.d.waiters && s.d.futures[g].Pending?;
        assert Asleep(s, s.tasks[s.owners[g]]);
      }
    }
  }

  lemma UnparkKeeps(s: Sys, t: nat)
    requires Base(s) && t < |s.tasks| && s.tasks[t].phase.Parked? && s.running.None?
    ensures Base(Unpark(s, t))
  {
    var s' := Unpark(s, t);
    assert PhaseOk(s, t) && TaskOk(s.kind, s.d.now, s.tasks[t]);
    UnparkClient(s.d, s.tasks[t].phase.future);
    TaskTable(s, s', t);
    UnparkWaits(s, t);
    OthersSleep(s, s');
  }

  lemma UnparkWaits(s: Sys, t: nat)
    requires WaitersOk(s) && t < |s.tasks| && s.tasks[t].phase.Parked?
    ensures WaitersOk(Unpark(s, t))
    ensures forall g :: g in Unpark(s, t).d.waiters ==> g in s.d.waiters && s.owners[g] != t
  {
    RemoveKeeps(s.d.waiters, s.tasks[t].phase.future);
  }

  lemma InterruptKeeps(s: Sys, t: nat, why: Interrupt)
    requires Base(s) && t < |s.tasks| && s.tasks[t].phase.Parked? && s.tasks[t].phase.future in s.d.futures
    requires s.running.None?
    requires why.CancelRequested? || (why.Expired? && s.tasks[t].phase.wakeAt.Some?
                                      && s.tasks[t].phase.wakeAt.value <= s.d.now)
    ensures Base(InterruptTask(s, t, why))
  {
    InterruptClient(s.d, s.tasks[t].phase.future);
    assert PhaseOk(s, t) && TaskOk(s.kind, s.d.now, s.tasks[t]);
    TaskTable(s, InterruptTask(s, t, why), t);
    InterruptWaits(s, t, why);
  }

  lemma InterruptWaits(s: Sys, t: nat, why: Interrupt)
    requires WaitersOk(s) && FuturesKnown(s.d) && SleepOk(s)
    requires t < |s.tasks| && s.tasks[t].phase.Parked? && s.tasks[t].phase.future in s.d.futures
    ensures var s' := InterruptTask(s, t, why); WaitersOk(s') && FuturesKnown(s'.d) && SleepOk(s')
  {
    OthersSleep(s, InterruptTask(s, t, why));
  }

  lemma TickKeeps(s: Sys, now: int)
    requires Base(s) && s.d.now <= now <= TIME_LIMIT
    ensures Base(s.(d := s.d.(now := now)))
  {
    var s' := s.(d := s.d.(now := now));
    assert ClientOk(s'.d);
    forall u | 0 <= u < |s'.tasks| ensures PhaseOk(s', u) && TaskOk(s'.kind, now, s'.tasks[u]) {
      assert PhaseOk(s, u);
    }
    OthersSleep(s, s');
  }

  /** A core that the client has replaced changes, and offers nothing new. */
  lemma RetiredMoves(s: Sys, g: nat, c: Core)
    requires Base(s) && g < |s.retired| && Settled(s.retired[g], c)
    ensures Base(s.(retired := s.retired[g := c]))
  {
    var s' := s.(retired := s.retired[g := c]);
    RetiredTable(s, g, c);
    assert forall h :: 0 <= h < Cores(s) && h != g ==> CoreAt(s', h) == CoreAt(s, h);
    StillAsleep(s, s');
  }

  lemma RetiredTable(s: Sys, g: nat, c: Core)
    requires CoresOk(s) && PhasesOk(s) && g < |s.retired| && Settled(s.retired[g], c)
    ensures var s' := s.(retired := s.retired[g := c]); CoresOk(s') && PhasesOk(s')
  {
    var s' := s.(retired := s.retired[g := c]);
    assert CoreAt(s, g) == s.retired[g] && CoreAt(s', g) == c;
    forall h | 0 <= h < Cores(s)
      ensures CoreOk(CoreAt(s', h)) && CoreAt(s', h).kind == s.kind
      ensures CoreAt(s', h).engine.session == CoreAt(s, h).engine.session
    {
      if h != g { assert CoreAt(s', h) == CoreAt(s, h); }
    }
    forall u | 0 <= u < |s.tasks| ensures PhaseOk(s', u) { assert PhaseOk(s, u); }
  }

  /** An attempt on one core disturbs no task. */
  lemma CoreMoves(s: Sys, g: nat, c: Core)
    requires Base(s) && g < Cores(s) && Settled(CoreAt(s, g), c)
    ensures Base(SetCore(s, g, c))
  {
    if g < |s.retired| {
      RetiredMoves(s, g, c);
    } else {
      SwapCoreKeeps(s.d, c);
      DriverMoves(s, s.d.(core := Some(c)), s.events);
      assert s.(d := s.d.(core := Some(c)), events := s.events) == SetCore(s, g, c);
    }
  }

  lemma TriedKeeps(s: Sys, t: nat, c: Core)
    requires Base(s) && Equipped(s, t) && s.tasks[t].phase.Ready? && Settled(CoreOf(s, t), c)
    ensures Base(Tried(s, t, c)) && Tried(s, t, c).tasks[t].phase.Ready?
  {
    var g := s.tasks[t].on.value;
    CoreMoves(s, g, c);
    var s1 := SetCore(s, g, c);
    assert PhaseOk(s, t);
    var k := s.tasks[t].(tries := s.tasks[t].tries + 1, triedAt := s.events);
    TaskMoves(s1, t, k, Some(t));
    TriedForm(s, t, c);
  }

  lemma TriedForm(s: Sys, t: nat, c: Core)
    requires Equipped(s, t) && s.running == Some(t)
    ensures Tried(s, t, c) ==
      SetTask(SetCore(s, s.tasks[t].on.value, c), t,
              s.tasks[t].(tries := s.tasks[t].tries + 1, triedAt := s.events)).(running := Some(t))
  {}

  lemma LogIsFree(s: Sys, log: seq<Entry>)
    requires Base(s)
    ensures Base(s.(log := log))
  {
    var s' := s.(log := log);
    forall u | 0 <= u < |s'.tasks| ensures PhaseOk(s', u) { assert PhaseOk(s, u); }
    OthersSleep(s, s');
  }

  lemma GrantKeeps(s: Sys, t: nat, c: Core, v: Val)
    requires Base(s) && Equipped(s, t) && s.tasks[t].phase.Ready? && Settled(CoreOf(s, t), c)
    ensures Base(Grant(s, t, c, v))
  {
    var g := s.tasks[t].on.value;
    CoreMoves(s, g, c);
    var s1 := SetCore(s, g, c);
    assert PhaseOk(s, t);
    var s' := Grant(s, t, c, v);
    assert TaskOk(s.kind, s.d.now, s.tasks[t]);
    TaskMoves(s1, t, s'.tasks[t], s'.running);
    LogIsFree(SetTask(s1, t, s'.tasks[t]).(running := s'.running), s'.log);
    assert s' == SetTask(s1, t, s'.tasks[t]).(running := s'.running).(log := s'.log);
  }

  lemma ProcessMoves(s: Sys)
    requires Base(s)
    ensures Base(s.(d := Process(s.d)))
  {
    ProcessKeeps(s.d);
    if s.d.core.Some? && !s.d.closed {
      DriverMoves(s, Process(s.d), s.events);
      assert s.(d := Process(s.d), events := s.events) == s.(d := Process(s.d));
    } else {
      assert s.(d := Process(s.d)) == s;
    }
  }

  /** After a fruitless attempt: the deadline passed, or the task parks. */
  lemma FruitlessKeeps(s: Sys, t: nat)
    requires Base(s) && Equipped(s, t) && s.tasks[t].phase.Ready? && !s.d.closed && s.tasks[t].tries >= 1
    requires s.tasks[t].triedAt == s.events && !Ripe(CoreOf(s, t), OpOf(s.tasks[t]))
    ensures Base(Linger(s, t))
  {
    if Deadline(s.tasks[t]).Some? && Deadline(s.tasks[t]).value - s.d.now <= 0 {
      FailKeeps(s, t, TimeoutError, TimeoutText(s.kind));
    } else {
      ParkKeeps(s, t);
    }
  }

  lemma RaiseKeeps(s: Sys, t: nat, c: Core, exc: Exc, message: string)
    requires Base(s) && Equipped(s, t) && s.tasks[t].phase.Ready? && Settled(CoreOf(s, t), c) && exc != TimeoutError
    ensures Base(AfterAttempt(s, t, c, Raise(exc, message)))
  {
    TriedKeeps(s, t, c);
    FailKeeps(Tried(s, t, c), t, exc, message);
    assert AfterAttempt(s, t, c, Raise(exc, message)) == Fail(Tried(s, t, c), t, exc, message);
  }

  lemma ValueKeeps(s: Sys, t: nat, c: Core, v: Val)
    requires Base(s) && Equipped(s, t) && s.tasks[t].phase.Ready? && Settled(CoreOf(s, t), c)
    ensures Base(AfterAttempt(s, t, c, Value(v)))
  {
    GrantKeeps(s, t, c, v);
    ProcessMoves(Grant(s, t, c, v));
  }

  lemma NoneYetKeeps(s: Sys, t: nat, c: Core)
    requires Base(s) && Equipped(s, t) && s.tasks[t].phase.Ready? && !s.d.closed && Settled(CoreOf(s, t), c)
    requires !Ripe(c, OpOf(s.tasks[t]))
    ensures Base(AfterAttempt(s, t, c, NoneYet))
  {
    TriedKeeps(s, t, c);
    assert CoreOf(Tried(s, t, c), t) == c;
    FruitlessKeeps(Tried(s, t, c), t);
  }

  lemma AfterAttemptKeeps(s: Sys, t: nat, c: Core, r: Py<Val>)
    requires Base(s) && Equipped(s, t) && s.tasks[t].phase.Ready? && !s.d.closed && Settled(CoreOf(s, t), c)
    requires r.Raise? ==> r.exc != TimeoutError
    requires r.NoneYet? ==> !Ripe(c, OpOf(s.tasks[t]))
    ensures Base(AfterAttempt(s, t, c, r))
  {
    match r {
      case Raise(exc, message) => RaiseKeeps(s, t, c, exc, message);
      case Value(v) => ValueKeeps(s, t, c, v);
      case NoneYet => NoneYetKeeps(s, t, c);
    }
    assert r == NoneYet || r == (if r.Value? then Value(r.value) else Raise(r.exc, r.message));
  }

  lemma TurnKeeps(s: Sys, t: nat, a: Answer, e: Effect)
    requires Base(s) && TurnOk(s, t, a, e)
    ensures Base(Turn(s, t, a, e))
  {
    if s.d.closed {
      FailKeeps(s, t, ConnectionError, GivenReason(s.d));
    } else {
      var (c, r) := Attempt(CoreOf(s, t), OpOf(s.tasks[t]), a, e);
      AttemptMoves(CoreOf(s, t), OpOf(s.tasks[t]), a, e);
      if r.NoneYet? { NoneYetIsNotRipe(CoreOf(s, t), OpOf(s.tasks[t]), a, e); }
      AfterAttemptKeeps(s, t, c, r);
    }
  }

  lemma NoneYetIsNotRipe(c: Core, op: Op, a: Answer, e: Effect)
    requires CoreOk(c) && AttemptOk(c, op, a, e) && Attempt(c, op, a, e).1.NoneYet?
    ensures !Ripe(Attempt(c, op, a, e).0, op)
  {
    var (c', r) := Attempt(c, op, a, e);
    AttemptMoves(c, op, a, e);
    if Ripe(c', op) {
      CalmerNeverRipens(c, c', op);
      RipeDecides(c, op, a, e);
    }
  }
}
