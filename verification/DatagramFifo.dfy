/** The inbound datagram queue (datagrams as in section 5 of RFC 9221): the raw
    client neither loses nor duplicates one, whatever buffers are offered; the
    WebTransport client loses one exactly when it answers TOO_BIG. */
module DatagramFifo {
  import opened Prelude
  import opened Engine
  import opened Glue
  import opened GlueInvariant

  datatype DatagramStep =
    | ArrivesNow(data: Bytes)
    | PeekNow
    | ReceiveNow(bufferLen: nat)

  function AfterStep(c: Core, step: DatagramStep): Core
  {
    match step
    case ArrivesNow(data) => OnEvent(c, DatagramReceived(data))
    case PeekNow => PeekDatagramSize(c).0
    case ReceiveNow(n) => ReceiveDatagram(c, n).0
  }

  function AfterSteps(c: Core, steps: seq<DatagramStep>): Core
    decreases |steps|
  {
    if steps == [] then c else AfterSteps(AfterStep(c, steps[0]), steps[1..])
  }

  /** A receive whose buffer is smaller than the head of the queue. */
  predicate Short(c: Core, step: DatagramStep)
  {
    step.ReceiveNow? && c.visitor.datagrams != [] && step.bufferLen < |c.visitor.datagrams[0]|
  }

  /** How many receives of a schedule are offered such a buffer. */
  function Overflows(c: Core, steps: seq<DatagramStep>): nat
    decreases |steps|
  {
    if steps == [] then 0 else (if Short(c, steps[0]) then 1 else 0) + Overflows(AfterStep(c, steps[0]), steps[1..])
  }

  /** What a step takes away without delivering it. */
  function Lost(c: Core, step: DatagramStep): nat
  {
    if c.kind.Wt? && Short(c, step) then 1 else 0
  }

  /** Queue arithmetic of one step. */
  ghost predicate Balanced(c: Core, c': Core, lost: nat)
  {
    && Watching(c') && c'.kind == c.kind && (c'.kind.Wt? ==> Usable(c'))
    && |c'.past.arrived| - |c'.past.taken| - |c'.visitor.datagrams|
       == |c.past.arrived| - |c.past.taken| - |c.visitor.datagrams| + lost
    && (lost == 0 && DatagramsOk(c) ==> DatagramsOk(c'))
  }

  lemma OverflowBalance(c: Core, n: nat)
    requires Watching(c) && (c.kind.Wt? ==> Usable(c)) && c.visitor.datagrams != [] && n < |c.visitor.datagrams[0]|
    ensures Balanced(c, ReceiveDatagram(c, n).0, if c.kind.Wt? then 1 else 0)
  {
    OverflowDiffers(c, n);
    var c0, c' := Clear(c), ReceiveDatagram(c, n).0;
    assert c' == (if c.kind.Wt? then TakeDatagram(c0) else c0).(lastError := c'.lastError);
  }

  lemma TakeBalance(c: Core)
    requires Watching(c) && (c.kind.Wt? ==> Usable(c)) && c.visitor.datagrams != []
    ensures Balanced(c, TakeDatagram(Clear(c)).(past := c.past.(taken := c.past.taken + [c.visitor.datagrams[0]])), 0)
  {
    assert c.visitor.datagrams == [c.visitor.datagrams[0]] + c.visitor.datagrams[1..];
  }

  lemma ReceiveBalance(c: Core, n: nat)
    requires Watching(c) && (c.kind.Wt? ==> Usable(c))
    ensures Balanced(c, ReceiveDatagram(c, n).0, Lost(c, ReceiveNow(n)))
  {
    if c.visitor.datagrams == [] {
      assert ReceiveDatagram(c, n).0 == Clear(c) && Balanced(c, Clear(c), 0);
    } else if n < |c.visitor.datagrams[0]| {
      OverflowBalance(c, n);
    } else {
      TakeBalance(c);
    }
  }

  lemma StepBalance(c: Core, step: DatagramStep)
    requires Watching(c) && (c.kind.Wt? ==> Usable(c))
    ensures Balanced(c, AfterStep(c, step), Lost(c, step))
  {
    match step
    case ArrivesNow(data) => assert Balanced(c, OnEvent(c, DatagramReceived(data)), 0);
    case PeekNow => assert Balanced(c, PeekDatagramSize(c).0, 0);
    case ReceiveNow(n) => ReceiveBalance(c, n);
  }

  /** The raw FIFO: for any interleaving of arrivals, peeks and receives with any buffer sizes,
      taken followed by queued is everything that arrived, in order. */
  lemma {:induction false} RawFifo(c: Core, steps: seq<DatagramStep>)
    requires c.kind.Raw? && DatagramsOk(c)
    ensures var c' := AfterSteps(c, steps); c'.past.arrived == c'.past.taken + c'.visitor.datagrams
    decreases |steps|
  {
    if steps != [] {
      StepBalance(c, steps[0]);
      RawFifo(AfterStep(c, steps[0]), steps[1..]);
    }
  }

  lemma {:induction false} WtBalance(c: Core, steps: seq<DatagramStep>)
    requires c.kind.Wt? && Usable(c)
    ensures var c' := AfterSteps(c, steps);
      && |c'.past.arrived| - |c'.past.taken| - |c'.visitor.datagrams|
         == |c.past.arrived| - |c.past.taken| - |c.visitor.datagrams| + Overflows(c, steps)
      && (Overflows(c, steps) == 0 && DatagramsOk(c) ==> DatagramsOk(c'))
      && Watching(c')
    decreases |steps|
  {
    if steps != [] {
      StepBalance(c, steps[0]);
      WtBalance(AfterStep(c, steps[0]), steps[1..]);
    }
  }

  /** The WebTransport FIFO conserves datagrams if and only if no receive was offered a buffer smaller
      than the head of the queue. */
  lemma WtFifo(c: Core, steps: seq<DatagramStep>)
    requires c.kind.Wt? && Usable(c) && DatagramsOk(c)
    ensures var c' := AfterSteps(c, steps);
      c'.past.arrived == c'.past.taken + c'.visitor.datagrams <==> Overflows(c, steps) == 0
  {
    WtBalance(c, steps);
  }

  /** The same short buffer: the raw client keeps the datagram, the WebTransport client has lost it. */
  lemma OverflowDiffers(c: Core, n: nat)
    requires Watching(c) && (c.kind.Wt? ==> Usable(c)) && c.visitor.datagrams != [] && n < |c.visitor.datagrams[0]|
    ensures var (c', st, data) := ReceiveDatagram(c, n);
      && st == TOO_BIG && c'.past.taken == c.past.taken
      && c'.visitor.datagrams == (if c.kind.Raw? then c.visitor.datagrams else c.visitor.datagrams[1..])
  {}

  const GRANTED := Answer(true, Accepted, Some(0), 0, Success, true, true, true)
  const STARTED := Effect([], [], {}, true)
  const READY := Effect([], [SessionReady, DatagramReceived([0])], {}, true)

  /** A WebTransport client right after its session became ready and a one-byte datagram arrived. */
  function Ready(): Core
  {
    var started := Start(NewCore(Wt, "host"), true, true, STARTED).0;
    var requested := ConnectSession(started, "/", [], GRANTED, STARTED).0;
    ReceivePacket(requested, [0], READY).0
  }

  lemma ReadyIsReached()
    ensures var c := Ready();
      c.kind.Wt? && Usable(c) && c.visitor.datagrams == [[0]] && c.past.arrived == [[0]] && c.past.taken == []
  {
    var requested := ConnectSession(Start(NewCore(Wt, "host"), true, true, STARTED).0, "/", [], GRANTED, STARTED).0;
    assert READY.events[1..] == [DatagramReceived([0])] && READY.events[1..][1..] == [];
    assert requested.hasVisitor && requested.visitor == NEW_VISITOR && requested.past.arrived == [];
    assert Deliver(OnEvent(requested, SessionReady), READY.events[1..])
        == OnEvent(OnEvent(requested, SessionReady), DatagramReceived([0]));
  }

  /** Received with an empty buffer there, the datagram is gone: not delivered and not queued. */
  lemma WtLosesADatagram()
    ensures var (c, st, data) := ReceiveDatagram(Ready(), 0);
      && st == TOO_BIG && data == []
      && c.past.arrived == [[0]] && c.past.taken == [] && c.visitor.datagrams == []
      && Overflows(Ready(), [ReceiveNow(0)]) == 1
  {
    ReadyIsReached();
    assert [ReceiveNow(0)][1..] == [];
  }

  function Arrivals(c: Core, arrivals: seq<Bytes>): Core
  {
    if arrivals == [] then c
    else OnEvent(Arrivals(c, arrivals[..|arrivals| - 1]), DatagramReceived(arrivals[|arrivals| - 1]))
  }

  lemma {:induction false} ArrivalsQueue(c: Core, arrivals: seq<Bytes>)
    requires Watching(c)
    ensures var c' := Arrivals(c, arrivals);
      c' == c.(visitor := c.visitor.(datagrams := c.visitor.datagrams + arrivals),
               past := c.past.(arrived := c.past.arrived + arrivals))
  {
    if arrivals == [] {
      assert c.visitor.datagrams + [] == c.visitor.datagrams && c.past.arrived + [] == c.past.arrived;
    } else {
      var rest := arrivals[..|arrivals| - 1];
      ArrivalsQueue(c, rest);
      assert rest + [arrivals[|arrivals| - 1]] == arrivals;
      assert c.visitor.datagrams + rest + [arrivals[|arrivals| - 1]] == c.visitor.datagrams + arrivals;
      assert c.past.arrived + rest + [arrivals[|arrivals| - 1]] == c.past.arrived + arrivals;
    }
  }

  /** The two-step receive of the binding cannot overflow: a receive of the peeked size succeeds with
      the peeked head even when datagrams arrive in between, in both clients. */
  lemma PeekThenReceive(c: Core, arrivals: seq<Bytes>)
    requires Watching(c) && (c.kind.Wt? ==> Usable(c)) && c.visitor.datagrams != []
    ensures var (c1, st1, size) := PeekDatagramSize(c);
      var (c2, st2, data) := ReceiveDatagram(Arrivals(c1, arrivals), size);
      && st1 == OK && st2 == OK && data == c.visitor.datagrams[0]
      && c2.visitor.datagrams == c.visitor.datagrams[1..] + arrivals
      && c2.past.taken == c.past.taken + [data]
  {
    ArrivalsQueue(PeekDatagramSize(c).0, arrivals);
    assert (c.visitor.datagrams + arrivals)[1..] == c.visitor.datagrams[1..] + arrivals;
  }

  /** With buffers at least as long as the head, both clients answer alike. */
  lemma ClientsAgree(raw: Core, wt: Core, n: nat)
    requires raw.kind.Raw? && wt.kind.Wt? && Usable(wt) && raw.visitor.datagrams == wt.visitor.datagrams
    requires raw.visitor.datagrams != [] ==> n >= |raw.visitor.datagrams[0]|
    ensures var (r, st, data) := ReceiveDatagram(raw, n);
      var (w, st', data') := ReceiveDatagram(wt, n);
      st == st' && data == data' && r.visitor.datagrams == w.visitor.datagrams
  {}

  /** The same schedule, on both clients: as long as no buffer is smaller than the head of the queue
      both take the same datagrams and queue the same ones. */
  lemma {:induction false} ClientsPlayAlike(raw: Core, wt: Core, steps: seq<DatagramStep>)
    requires raw.kind.Raw? && wt.kind.Wt? && Usable(wt) && Overflows(raw, steps) == 0
    requires raw.visitor.datagrams == wt.visitor.datagrams && raw.past.taken == wt.past.taken
    ensures var (r, w) := (AfterSteps(raw, steps), AfterSteps(wt, steps));
      r.visitor.datagrams == w.visitor.datagrams && r.past.taken == w.past.taken
    decreases |steps|
  {
    if steps != [] {
      StepsAgree(raw, wt, steps[0]);
      ClientsPlayAlike(AfterStep(raw, steps[0]), AfterStep(wt, steps[0]), steps[1..]);
    }
  }

  lemma StepsAgree(raw: Core, wt: Core, step: DatagramStep)
    requires raw.kind.Raw? && wt.kind.Wt? && Usable(wt)
    requires raw.visitor.datagrams == wt.visitor.datagrams && raw.past.taken == wt.past.taken
    requires !Short(raw, step)
    ensures var (r, w) := (AfterStep(raw, step), AfterStep(wt, step));
      && r.kind.Raw? && w.kind.Wt? && Usable(w)
      && r.visitor.datagrams == w.visitor.datagrams && r.past.taken == w.past.taken
  {
    if step.ReceiveNow? && raw.visitor.datagrams != [] {
      assert step.bufferLen >= |raw.visitor.datagrams[0]|;
      ClientsAgree(raw, wt, step.bufferLen);
    }
  }
}
