/** Which exceptions a call can end with, over whole runs: each class points at the
    arguments, the stream, the clock, the set-up or the connection. */
module Blame {
  import opened Prelude
  import opened Engine
  import opened Glue
  import opened GlueInvariant
  import opened Binding
  import opened Driver
  import opened DriverEvents
  import opened Machine
  import opened Waiting
  import opened Steps
  import opened Sessions
  import opened Transports
  import opened Finality
  import opened Headers
  import opened Outcomes

  /** Arguments that no state of the client could accept. */
  ghost predicate BadOp(op: Op)
  {
    match op
    case Read(_, maxBytes) => maxBytes == 0 || maxBytes > MAX_INPUT_BYTES
    case Write(_, data, fin) => |data| > MAX_INPUT_BYTES || (data == [] && !fin)
    case SendDgram(data) => |data| > MAX_INPUT_BYTES
    case Submit(headers, body, _) => !HeadersFit(headers) || |body| > MAX_INPUT_BYTES || Named(headers, "")
    case OpenSession(path, headers) => !HeadersFit(headers) || path == "" || Named(headers, "")
    case _ => false
  }

  /** The stage of a call at which its arguments are looked at. */
  function VettingStage(call: Call): nat { if call.Connect? then 1 else 0 }

  ghost predicate BadCall(kind: Kind, call: Call)
  {
    VettingStage(call) < Stages(kind, call) && BadOp(OpAt(call, VettingStage(call), 0))
  }

  // ----- one attempt

  /** What an exception of one attempt says. */
  ghost predicate AttemptBlames(kind: Kind, op: Op, exc: Exc)
  {
    match exc
    case ValueError => BadOp(op) || op.SendDgram?
    case KeyError => op.Read? || op.Write?
    case ConnectionError => kind.Raw?
    case RuntimeError => !(kind.Raw? && op.Read?)
    case _ => false
  }

  /** A session that was set up before asks for no second CONNECT; its arguments were looked at then. */
  ghost predicate Answerable(c: Core, op: Op, r: Py<Val>)
  {
    && (r.Raise? ==> AttemptBlames(c.kind, op, r.exc))
    && (r.Value? && (op.OpenSession? ==> !c.connectRequested) ==> !BadOp(op))
  }

  lemma StreamBlame(c: Core, op: Op, a: Answer, e: Effect)
    requires op.Read? || op.Write?
    requires op.Read? && op.id in c.engine.streams ==> RegionOk(c.engine.streams[op.id], a.region)
    ensures Answerable(c, op, Attempt(c, op, a, e).1)
  {
    if op.Read? { ReadAnswers(c, op, a, e); } else { WriteAnswers(c, op, a, e); }
  }

  lemma RequestBlame(c: Core, op: Op, a: Answer, e: Effect)
    requires op.Submit? || op.OpenSession?
    requires c.connectRequested <==> c.hasTransport
    ensures Answerable(c, op, Attempt(c, op, a, e).1)
  {
    if op.Submit? { SubmitAnswers(c, op, a, e); } else { ConnectAnswers(c, op, a, e); }
  }

  lemma SendBlame(c: Core, op: Op, a: Answer, e: Effect)
    requires op.SendDgram?
    ensures Answerable(c, op, Attempt(c, op, a, e).1)
  {
    SendAnswers(c, op, a, e);
  }

  lemma ReceiveBlame(c: Core)
    ensures Answerable(c, ReceiveDgram, PyReceiveDatagram(c).1)
  {}

  lemma OtherBlame(c: Core, op: Op, a: Answer, e: Effect)
    requires op.AwaitConnected? || op.AwaitSession? || op.Take? || op.Open? || op.Accept?
    ensures Answerable(c, op, Attempt(c, op, a, e).1)
  {}

  lemma AttemptBlame(c: Core, op: Op, a: Answer, e: Effect)
    requires op.Read? && op.id in c.engine.streams ==> RegionOk(c.engine.streams[op.id], a.region)
    requires c.connectRequested <==> c.hasTransport
    ensures Answerable(c, op, Attempt(c, op, a, e).1)
  {
    if op.Read? || op.Write? {
      StreamBlame(c, op, a, e);
    } else if op.Submit? || op.OpenSession? {
      RequestBlame(c, op, a, e);
    } else if op.SendDgram? {
      SendBlame(c, op, a, e);
    } else if op.ReceiveDgram? {
      ReceiveBlame(c);
      assert Attempt(c, op, a, e) == PyReceiveDatagram(c);
    } else {
      OtherBlame(c, op, a, e);
    }
  }

  // ----- tasks

  /** Arguments were looked at before a call got any further. */
  ghost predicate Vetted(kind: Kind, k: Task)
  {
    k.stage > VettingStage(k.call) ==> !BadCall(kind, k.call)
  }

  ghost predicate Blames(kind: Kind, closed: bool, k: Task)
  {
    k.phase.Finished? && k.phase.outcome.Failed? ==>
      match k.phase.outcome.exc
      case ValueError => BadCall(kind, k.call) || k.call.SendDatagramCall?
      case KeyError => k.call.ReadCall? || k.call.WriteCall?
      case ConnectionError => closed || kind.Raw?
      case TimeoutError => k.timeout.Some?
      case OSError => k.call.Connect?
      case RuntimeError => !(kind.Raw? && k.call.ReadCall?)
      case CancelledError => true
  }

  ghost predicate TaskBlames(kind: Kind, closed: bool, k: Task) { Vetted(kind, k) && Blames(kind, closed, k) }

  ghost predicate AllBlame(s: Sys)
  {
    forall t :: 0 <= t < |s.tasks| ==> TaskBlames(s.kind, s.d.closed, s.tasks[t])
  }

  lemma BadOpIsBadCall(kind: Kind, k: Task)
    requires k.stage < Stages(kind, k.call) && BadOp(OpOf(k))
    ensures BadCall(kind, k.call) && k.stage == VettingStage(k.call)
  {}

  /** How an attempt leaves the task that made it. */
  ghost predicate EndsAs(k: Task, k': Task, r: Py<Val>)
  {
    && k'.call == k.call && k'.timeout == k.timeout && k'.stage == k.stage + (if r.Value? then 1 else 0)
    && (k'.phase.Finished? && k'.phase.outcome.Failed? ==>
          (r.Raise? && k'.phase.outcome.exc == r.exc)
          || (r.NoneYet? && k'.phase.outcome.exc == TimeoutError && k.timeout.Some?))
  }

  lemma EndedBlames(kind: Kind, closed: bool, c: Core, k: Task, k': Task, r: Py<Val>)
    requires TaskBlames(kind, closed, k) && k.stage < Stages(kind, k.call) && c.kind == kind
    requires Answerable(c, OpOf(k), r) && EndsAs(k, k', r) && (k.call.Connect? && k.stage == 1 ==> !c.connectRequested)
    ensures TaskBlames(kind, closed, k')
  {
    if BadOp(OpOf(k)) { BadOpIsBadCall(kind, k); }
    if BadCall(kind, k.call) && k.stage == VettingStage(k.call) {
      assert BadOp(OpOf(k));
    }
  }

  /** One task changed, nobody else's blame did. */
  lemma OneBlames(s: Sys, s': Sys, t: nat)
    requires AllBlame(s) && t < |s.tasks| == |s'.tasks| && s'.tasks == s.tasks[t := s'.tasks[t]]
    requires s'.kind == s.kind && (s.d.closed ==> s'.d.closed) && TaskBlames(s'.kind, s'.d.closed, s'.tasks[t])
    ensures AllBlame(s')
  {
    forall u | 0 <= u < |s'.tasks| ensures TaskBlames(s'.kind, s'.d.closed, s'.tasks[u]) {
      assert TaskBlames(s.kind, s.d.closed, s.tasks[u]);
    }
  }

  /** What an attempt does to everything but the cores. */
  ghost predicate Concludes(s: Sys, s': Sys, t: nat, r: Py<Val>)
    requires t < |s.tasks|
  {
    && s'.kind == s.kind && (s.d.closed ==> s'.d.closed)
    && |s'.tasks| == |s.tasks| && s'.tasks == s.tasks[t := s'.tasks[t]] && EndsAs(s.tasks[t], s'.tasks[t], r)
  }

  lemma RaiseEnds(s: Sys, t: nat, c: Core, exc: Exc, message: string)
    requires Equipped(s, t)
    ensures Concludes(s, Fail(Tried(s, t, c), t, exc, message), t, Raise(exc, message))
  {
    TeardownKeepsTransports(Tried(s, t, c).d, "connect failed");
  }

  lemma ValueEnds(s: Sys, t: nat, c: Core, v: Val)
    requires Equipped(s, t)
    ensures Concludes(s, AfterAttempt(s, t, c, Value(v)), t, Value(v))
  {
    DriverKeepsTransports(Grant(s, t, c, v).d);
  }

  lemma ExpiryEnds(s: Sys, t: nat)
    requires t < |s.tasks| && s.tasks[t].timeout.Some?
    ensures Concludes(s, Fail(s, t, TimeoutError, TimeoutText(s.kind)), t, NoneYet)
  {
    TeardownKeepsTransports(s.d, "connect failed");
  }

  lemma ParkEnds(s: Sys, t: nat)
    requires t < |s.tasks|
    ensures Concludes(s, Park(s, t), t, NoneYet)
  {}

  lemma NoneYetEnds(s: Sys, t: nat, c: Core)
    requires Equipped(s, t)
    ensures Concludes(s, AfterAttempt(s, t, c, NoneYet), t, NoneYet)
  {
    var s1 := Tried(s, t, c);
    if Deadline(s1.tasks[t]).Some? { ExpiryEnds(s1, t); }
    ParkEnds(s1, t);
    assert AfterAttempt(s, t, c, NoneYet) == Linger(s1, t);
    TriedConcludes(s, Linger(s1, t), t, c, NoneYet);
  }

  lemma TriedConcludes(s: Sys, s': Sys, t: nat, c: Core, r: Py<Val>)
    requires Equipped(s, t) && Concludes(Tried(s, t, c), s', t, r)
    ensures Concludes(s, s', t, r)
  {}

  lemma AttemptEnds(s: Sys, t: nat, c: Core, r: Py<Val>)
    requires Equipped(s, t)
    ensures Concludes(s, AfterAttempt(s, t, c, r), t, r)
  {
    match r
    case Raise(exc, message) => RaiseEnds(s, t, c, exc, message);
    case Value(v) => ValueEnds(s, t, c, v);
    case NoneYet => NoneYetEnds(s, t, c);
  }

  lemma AttemptKeepsBlame(s: Sys, t: nat, a: Answer, e: Effect)
    requires Base(s) && OneConnect(s) && AllBlame(s) && TurnOk(s, t, a, e) && !s.d.closed
    ensures AllBlame(Turn(s, t, a, e))
  {
    var k := s.tasks[t];
    var (c, r) := Attempt(CoreOf(s, t), OpOf(k), a, e);
    AttemptBlame(CoreOf(s, t), OpOf(k), a, e);
    AttemptEnds(s, t, c, r);
    assert PhaseOk(s, t) && TaskOk(s.kind, s.d.now, k);
    var s' := AfterAttempt(s, t, c, r);
    if k.call.Connect? && k.stage == 1 { assert ProgressOk(CoreOf(s, t), k); }
    EndedBlames(s.kind, s'.d.closed, CoreOf(s, t), k, s'.tasks[t], r);
    OneBlames(s, s', t);
  }

  lemma FailKeepsBlame(s: Sys, t: nat, exc: Exc, message: string)
    requires AllBlame(s) && t < |s.tasks|
    requires exc != OSError && exc != ValueError && exc != KeyError && exc != RuntimeError
    requires (exc.ConnectionError? ==> s.d.closed) && (exc.TimeoutError? ==> s.tasks[t].timeout.Some?)
    ensures AllBlame(Fail(s, t, exc, message))
  {
    var s' := Fail(s, t, exc, message);
    TeardownKeepsTransports(s.d, "connect failed");
    assert TaskBlames(s.kind, s.d.closed, s.tasks[t]);
    OneBlames(s, s', t);
  }

  lemma TurnKeepsBlame(s: Sys, t: nat, a: Answer, e: Effect)
    requires Base(s) && OneConnect(s) && AllBlame(s) && TurnOk(s, t, a, e)
    ensures AllBlame(Turn(s, t, a, e))
  {
    if s.d.closed {
      FailKeepsBlame(s, t, ConnectionError, GivenReason(s.d));
    } else {
      AttemptKeepsBlame(s, t, a, e);
    }
  }

  lemma UnparkKeepsBlame(s: Sys, t: nat)
    requires Base(s) && OneConnect(s) && AllBlame(s) && t < |s.tasks| && s.tasks[t].phase.Parked? && s.running.None?
    ensures Base(Unpark(s, t)) && OneConnect(Unpark(s, t)) && AllBlame(Unpark(s, t))
  {
    UnparkKeeps(s, t);
    var s1 := Unpark(s, t);
    OwnCoreUnasked(s, s1);
    UnaskedKeeps(s, s1);
    assert TaskBlames(s.kind, s.d.closed, s.tasks[t]);
    OneBlames(s, s1, t);
  }

  lemma ResumeKeepsBlame(s: Sys, t: nat, a: Answer, e: Effect)
    requires Base(s) && OneConnect(s) && AllBlame(s) && Legal(s, Resume(t, a, e))
    ensures AllBlame(DoResume(s, t, a, e))
  {
    UnparkKeepsBlame(s, t);
    assert TaskOk(s.kind, s.d.now, s.tasks[t]);
    match s.tasks[t].interrupt
    case CancelRequested => FailKeepsBlame(Unpark(s, t), t, CancelledError, "");
    case Expired => FailKeepsBlame(Unpark(s, t), t, TimeoutError, TimeoutText(s.kind));
    case Calm => TurnKeepsBlame(Unpark(s, t), t, a, e);
  }

  lemma EndpointKeepsBlame(s: Sys, t: nat, initialized: bool, attempting: bool, e: Effect)
    requires Base(s) && AllBlame(s) && Equipped(s, t) && s.tasks[t].phase.Attaching? && StartEffectOk(CoreOf(s, t), e)
    ensures AllBlame(DoEndpoint(s, t, None, initialized, attempting, e))
  {
    var (c, r) := PyStart(CoreOf(s, t), initialized, attempting, e);
    StartNotMistaken(CoreOf(s, t), initialized, attempting, e);
    AttachReplaces(SetCore(s, s.tasks[t].on.value, c), !r.Raise?);
    BegunShape(s, t, initialized, attempting, e);
    assert TaskOk(s.kind, s.d.now, s.tasks[t]) && TaskBlames(s.kind, s.d.closed, s.tasks[t]);
    OneBlames(s, DoEndpoint(s, t, None, initialized, attempting, e), t);
  }

  lemma SetupKeepsBlame(s: Sys, act: Action)
    requires Base(s) && AllBlame(s) && Legal(s, act) && (act.Lookup? || act.Endpoint?)
    ensures AllBlame(Step(s, act))
  {
    var t := act.t;
    assert TaskOk(s.kind, s.d.now, s.tasks[t]) && TaskBlames(s.kind, s.d.closed, s.tasks[t]);
    if act.failure.Some? {
      var s' := Finish(s, t, Failed(act.failure.value, "set-up failed"));
      assert Step(s, act) == s';
      OneBlames(s, s', t);
    } else if act.Lookup? {
      OneBlames(s, Enlist(s, t, NewCore(s.kind, act.serverName)), t);
    } else {
      EndpointKeepsBlame(s, t, act.initialized, act.attempting, act.e);
      assert Step(s, act) == DoEndpoint(s, t, None, act.initialized, act.attempting, act.e);
    }
  }

  lemma InvokeKeepsBlame(s: Sys, call: Call, timeout: Option<int>, on: nat)
    requires AllBlame(s)
    ensures AllBlame(DoInvoke(s, call, timeout, on))
  {
    var s' := DoInvoke(s, call, timeout, on);
    InvokedBlames(s, call, timeout, on);
    forall u | 0 <= u < |s'.tasks| ensures TaskBlames(s'.kind, s'.d.closed, s'.tasks[u]) {
      if u < |s.tasks| { assert TaskBlames(s.kind, s.d.closed, s.tasks[u]); }
    }
  }

  lemma InvokedBlames(s: Sys, call: Call, timeout: Option<int>, on: nat)
    ensures var s' := DoInvoke(s, call, timeout, on);
      && s'.kind == s.kind && s'.d == s.d && |s'.tasks| == |s.tasks| + 1 && s.tasks <= s'.tasks
      && TaskBlames(s.kind, s.d.closed, s'.tasks[|s.tasks|])
  {}

  lemma InterruptKeepsBlame(s: Sys, act: Action)
    requires AllBlame(s) && Legal(s, act) && (act.Expire? || act.Cancel?)
    ensures AllBlame(Step(s, act))
  {
    assert TaskBlames(s.kind, s.d.closed, s.tasks[act.t]);
    OneBlames(s, Step(s, act), act.t);
  }

  /** Steps that leave the table of tasks alone. */
  lemma CalmKeepsBlame(s: Sys, act: Action)
    requires Base(s) && AllBlame(s) && Legal(s, act) && (act.Tick? || act.Signal? || IsCallback(act))
    ensures AllBlame(Step(s, act))
  {
    CalmDrains(s, act);
    StepCarries(s, act);
    StepKeepsKind(s, act);
    var s' := Step(s, act);
    forall u | 0 <= u < |s'.tasks| ensures TaskBlames(s'.kind, s'.d.closed, s'.tasks[u]) {
      assert TaskBlames(s.kind, s.d.closed, s.tasks[u]);
    }
  }

  lemma StepKeepsBlame(s: Sys, act: Action)
    requires Base(s) && OneConnect(s) && AllBlame(s) && Legal(s, act)
    ensures AllBlame(Step(s, act))
  {
    if act.Tick? || act.Signal? || IsCallback(act) {
      CalmKeepsBlame(s, act);
    } else if act.Lookup? || act.Endpoint? {
      SetupKeepsBlame(s, act);
    } else if act.Expire? || act.Cancel? {
      InterruptKeepsBlame(s, act);
    } else {
      match act
      case Invoke(call, timeout, on) => InvokeKeepsBlame(s, call, timeout, on);
      case Continue(t, a, e) => TurnKeepsBlame(s, t, a, e);
      case Resume(t, a, e) => ResumeKeepsBlame(s, t, a, e);
    }
  }

  lemma {:induction false} RunKeepsBlame(s: Sys, acts: seq<Action>)
    requires Base(s) && OneConnect(s) && AllBlame(s) && LegalRun(s, acts)
    ensures AllBlame(Run(s, acts))
    decreases |acts|
  {
    if acts != [] {
      StepKeepsBase(s, acts[0]);
      StepKeepsOne(s, acts[0]);
      StepKeepsBlame(s, acts[0]);
      RunKeepsBlame(Step(s, acts[0]), acts[1..]);
    }
  }
}
