/** Exactly-once effects. Every attempt that returned a value is recorded once, for
    one stage of one task and one core, and the bytes, datagrams and requests that
    each core accepted or handed out are exactly those of the record, in order. */
module Records {
  import opened Prelude
  import opened Engine
  import opened Glue
  import opened GlueInvariant
  import opened Binding
  import opened AttemptFacts
  import opened Driver
  import opened DriverFacts
  import opened DriverEvents
  import opened Machine
  import opened Waiting
  import opened Steps

  /** The payloads of the accepted writes to one stream of core g, in acceptance order. */
  function WrittenBy(log: seq<Entry>, g: nat, id: StreamId): seq<Payload>
  {
    if log == [] then []
    else
      var x := log[|log| - 1];
      WrittenBy(log[..|log| - 1], g, id) + if x.on == g then Written(x.op, Value(x.value), id) else []
  }

  /** What the reads of one stream of core g returned, in order. */
  function ReadBy(log: seq<Entry>, g: nat, id: StreamId): Bytes
  {
    if log == [] then []
    else
      var x := log[|log| - 1];
      ReadBy(log[..|log| - 1], g, id) + if x.on == g then Delivered(x.op, Value(x.value), id) else []
  }

  /** The datagrams that receive_datagram() returned from core g, in order. */
  function TakenBy(log: seq<Entry>, g: nat): seq<Bytes>
  {
    if log == [] then []
    else
      var x := log[|log| - 1];
      TakenBy(log[..|log| - 1], g) + if x.on == g then Received(x.op, Value(x.value)) else []
  }

  /** The requests that the submits accepted by core g stand for, in order. */
  function RequestsBy(log: seq<Entry>, g: nat): seq<Request>
  {
    if log == [] then []
    else
      var x := log[|log| - 1];
      RequestsBy(log[..|log| - 1], g)
      + if x.on == g && x.op.Submit? && x.value.Issued? && BuildBlock(x.op.headers).Some?
        then [Request(x.value.id, BuildBlock(x.op.headers).value, x.op.body, x.op.fin)]
        else []
  }

  predicate Returns(k: Task) { k.phase.Finished? && k.phase.outcome.Returned? }

  /** Record positions and completed stages correspond one to one. */
  ghost predicate Indexed(s: Sys)
  {
    && (forall i :: 0 <= i < |s.log| ==>
          s.log[i].task < |s.tasks| && s.log[i].stage < |s.tasks[s.log[i].task].grants|
          && s.tasks[s.log[i].task].grants[s.log[i].stage] == i)
    && (forall t, k :: 0 <= t < |s.tasks| && 0 <= k < |s.tasks[t].grants| ==>
          s.tasks[t].grants[k] < |s.log|
          && s.log[s.tasks[t].grants[k]].task == t && s.log[s.tasks[t].grants[k]].stage == k)
  }

  /** A record says what its task asked for at that stage, and whom; its value fits, a submit's value is
      the fresh stream the task remembers, and a response is made of what completed on the stream it was
      taken from. */
  ghost predicate RecordTrue(s: Sys, i: nat)
    requires i < |s.log|
  {
    var x := s.log[i];
    && x.task < |s.tasks| && s.tasks[x.task].on == Some(x.on) && x.on < Cores(s)
    && x.op == OpAt(s.tasks[x.task].call, x.stage, s.tasks[x.task].stream)
    && ShapeOk(x.op, Value(x.value))
    && (x.op.Submit? ==> x.value == Issued(s.tasks[x.task].stream)
                         && s.tasks[x.task].stream in CoreAt(s, x.on).engine.issued)
    && (x.op.Take? ==> x.op.id in CoreAt(s, x.on).past.completed
                       && x.value == Reply(Answering(x.op.id, CoreAt(s, x.on).past.completed[x.op.id])))
  }

  /** A finished call returned what its last record says. */
  ghost predicate ReturnTrue(s: Sys, t: nat)
    requires t < |s.tasks| && Indexed(s)
  {
    var k := s.tasks[t];
    Returns(k) ==> |k.grants| > 0 && s.log[k.grants[|k.grants| - 1]].value == k.phase.outcome.value
  }

  ghost predicate Truthful(s: Sys)
    requires Indexed(s)
  {
    && (forall i :: 0 <= i < |s.log| ==> RecordTrue(s, i))
    && (forall t :: 0 <= t < |s.tasks| ==> ReturnTrue(s, t))
  }

  /** A read of core g that reported FIN. */
  predicate Ends(x: Entry, g: nat) { x.on == g && x.op.Read? && x.value.Chunk? && x.value.fin }

  /** A stream of the peer that core g handed to accept(). */
  predicate Accepts(x: Entry, g: nat) { x.on == g && x.op.Accept? && x.value.Opened? }

  /** Whatever had arrived on a stream had been read when FIN was reported, and nothing came later. */
  ghost predicate FinTrue(s: Streams, log: seq<Entry>, g: nat)
  {
    forall i :: 0 <= i < |log| && Ends(log[i], g) ==> FinAt(s, log, g, i)
  }

  predicate FinAt(s: Streams, log: seq<Entry>, g: nat, i: nat)
    requires i < |log| && Ends(log[i], g)
  {
    && Had(s, log[i].op.id) && Last(s, log[i].op.id).finReceived
    && Last(s, log[i].op.id).received == ReadBy(log[..i + 1], g, log[i].op.id)
  }

  /** The streams the record mentions have been issued, and those accepted wait no longer. */
  ghost predicate Known(c: Core, log: seq<Entry>, g: nat)
  {
    && (forall i :: 0 <= i < |log| && log[i].on == g && (log[i].op.Write? || log[i].op.Read?) ==>
          log[i].op.id in c.engine.issued && Had(StreamsOf(c), log[i].op.id))
    && (forall i :: 0 <= i < |log| && Accepts(log[i], g) ==>
          log[i].value.id in c.engine.issued && log[i].value.id !in c.engine.incoming)
  }

  ghost predicate StreamsTrue(s: Streams, log: seq<Entry>, g: nat)
  {
    forall id :: Had(s, id) ==>
      Last(s, id).sent == WrittenBy(log, g, id) && Last(s, id).delivered == ReadBy(log, g, id)
  }

  /** The core's data is what the record says. */
  ghost predicate Accounted(c: Core, log: seq<Entry>, g: nat)
  {
    && StreamsTrue(StreamsOf(c), log, g) && c.past.taken == TakenBy(log, g)
    && (c.kind.H3? ==> c.past.requests == RequestsBy(log, g))
    && Known(c, log, g) && FinTrue(StreamsOf(c), log, g)
  }

  /** No core ever gave the same stream to two requests, or the same incoming stream to two accepts. */
  ghost predicate Distinct(log: seq<Entry>)
  {
    forall i, j :: 0 <= i < j < |log| && log[i].on == log[j].on
                   && ((log[i].op.Submit? && log[j].op.Submit?)
                       || (Accepts(log[i], log[i].on) && Accepts(log[j], log[j].on)))
      ==> log[i].value != log[j].value
  }

  ghost predicate Recorded(s: Sys)
  {
    && Indexed(s) && Truthful(s) && Distinct(s.log)
    && forall g :: 0 <= g < Cores(s) ==> Accounted(CoreAt(s, g), s.log, g)
  }

  // ----- cores that accept and hand out nothing

  /** The core moved without accepting or handing out anything. */
  ghost predicate Idle(c: Core, c': Core)
  {
    && Carried(c, c') && c'.past.taken == c.past.taken
    && c'.kind == c.kind && (c.kind.H3? ==> c'.past.requests == c.past.requests)
  }

  lemma {:induction false} UnknownStreamsAreSilent(issued: set<StreamId>, log: seq<Entry>, g: nat, id: StreamId)
    requires forall i :: 0 <= i < |log| && log[i].on == g && (log[i].op.Write? || log[i].op.Read?) ==>
      log[i].op.id in issued
    requires id !in issued
    ensures WrittenBy(log, g, id) == [] && ReadBy(log, g, id) == []
  {
    if log != [] { UnknownStreamsAreSilent(issued, log[..|log| - 1], g, id); }
  }

  lemma IdleAccounted(c: Core, c': Core, log: seq<Entry>, g: nat)
    requires Accounted(c, log, g) && Idle(c, c')
    ensures Accounted(c', log, g)
  {
    var s, s' := StreamsOf(c), StreamsOf(c');
    forall id | Had(s', id)
      ensures Last(s', id).sent == WrittenBy(log, g, id) && Last(s', id).delivered == ReadBy(log, g, id)
    {
      if !Had(s, id) { UnknownStreamsAreSilent(c.engine.issued, log, g, id); }
    }
    forall i | 0 <= i < |log| && Ends(log[i], g) ensures FinAt(s', log, g, i) { assert FinAt(s, log, g, i); }
  }

  /** A core nobody has used. */
  predicate Blank(c: Core)
  {
    c.engine.streams == map[] && c.past.gone == map[] && c.past.taken == [] && c.past.requests == []
  }

  lemma {:induction false} NothingBy(log: seq<Entry>, g: nat)
    requires forall i :: 0 <= i < |log| ==> log[i].on != g
    ensures TakenBy(log, g) == [] && RequestsBy(log, g) == []
  {
    if log != [] { NothingBy(log[..|log| - 1], g); }
  }

  lemma BlankAccounted(c: Core, log: seq<Entry>, g: nat)
    requires Blank(c) && forall i :: 0 <= i < |log| ==> log[i].on != g
    ensures Accounted(c, log, g)
  {
    NothingBy(log, g);
  }

  lemma MovedIdle(c: Core, c': Core, op: Op, r: Py<Val>)
    requires Moved(c, c', op, r) && !r.Value? && (op.OpenSession? ==> !c.kind.H3?)
    ensures Idle(c, c')
  {
    UnmovedIsCarried(StreamsOf(c), StreamsOf(c'), c.engine.issued, op, r);
  }

  lemma UnmovedIsCarried(s: Streams, s': Streams, issued: set<StreamId>, op: Op, r: Py<Val>)
    requires DataMoved(s, s', issued, op, r) && !r.Value?
    ensures StreamsCarried(s, s', issued)
  {
    forall id | Had(s', id) ensures Last(s', id).sent == SentOn(s, id) && Last(s', id).delivered == DeliveredOn(s, id)
    {
      assert SentOn(s, id) + [] == SentOn(s, id) && DeliveredOn(s, id) + [] == DeliveredOn(s, id);
    }
  }

  lemma AfterIdle(c: Core, c': Core)
    requires Carried(c, c') && c'.past.taken == c.past.taken
    requires c'.kind == c.kind && c'.past.requests == c.past.requests
    ensures Idle(c, c')
  {}

  lemma SelfIdle(c: Core)
    ensures Idle(c, c)
  {}

  lemma SameCoreIdle(c: Core, c': Core)
    requires SameCore(c, c')
    ensures Idle(c, c')
  {}

  // ----- a new record

  /** A new record accounts for exactly what the attempt moved. */
  lemma GrantStreams(c: Core, c': Core, log: seq<Entry>, x: Entry)
    requires StreamsTrue(StreamsOf(c), log, x.on) && Known(c, log, x.on)
    requires DataMoved(StreamsOf(c), StreamsOf(c'), c.engine.issued, x.op, Value(x.value))
    ensures StreamsTrue(StreamsOf(c'), log + [x], x.on)
  {
    assert (log + [x])[..|log + [x]| - 1] == log;
    var s, s' := StreamsOf(c), StreamsOf(c');
    forall id | Had(s', id)
      ensures Last(s', id).sent == WrittenBy(log + [x], x.on, id)
      ensures Last(s', id).delivered == ReadBy(log + [x], x.on, id)
    {
      if !Had(s, id) { UnknownStreamsAreSilent(c.engine.issued, log, x.on, id); }
    }
  }

  lemma GrantKnown(c: Core, c': Core, log: seq<Entry>, x: Entry)
    requires CoreOk(c) && Known(c, log, x.on) && Moved(c, c', x.op, Value(x.value))
    ensures Known(c', log + [x], x.on)
  {}

  lemma OldFin(s: Streams, s': Streams, issued: set<StreamId>, log: seq<Entry>, x: Entry, i: nat)
    requires FinTrue(s, log, x.on) && DataMoved(s, s', issued, x.op, Value(x.value))
    requires i < |log| && Ends(log[i], x.on)
    ensures FinAt(s', log + [x], x.on, i)
  {
    assert (log + [x])[..i + 1] == log[..i + 1];
    assert FinAt(s, log, x.on, i);
  }

  lemma NewFin(c: Core, c': Core, log: seq<Entry>, x: Entry)
    requires StreamsOk(c') && StreamsMoved(c, c', x.op, Value(x.value)) && Ends(x, x.on)
    requires StreamsTrue(StreamsOf(c'), log + [x], x.on)
    ensures FinAt(StreamsOf(c'), log + [x], x.on, |log|)
  {
    assert (log + [x])[..|log| + 1] == log + [x];
    assert Had(StreamsOf(c'), x.op.id);
    var s := Last(StreamsOf(c'), x.op.id);
    assert s.delivered + s.unread == s.delivered;
  }

  lemma GrantFin(c: Core, c': Core, log: seq<Entry>, x: Entry)
    requires StreamsOk(c') && FinTrue(StreamsOf(c), log, x.on) && StreamsMoved(c, c', x.op, Value(x.value))
    requires StreamsTrue(StreamsOf(c'), log + [x], x.on)
    ensures FinTrue(StreamsOf(c'), log + [x], x.on)
  {
    var log' := log + [x];
    forall i | 0 <= i < |log'| && Ends(log'[i], x.on) ensures FinAt(StreamsOf(c'), log', x.on, i) {
      if i < |log| {
        OldFin(StreamsOf(c), StreamsOf(c'), c.engine.issued, log, x, i);
      } else {
        NewFin(c, c', log, x);
      }
    }
  }

  lemma GrantAccounted(c: Core, c': Core, log: seq<Entry>, x: Entry)
    requires CoreOk(c) && Accounted(c, log, x.on) && Moved(c, c', x.op, Value(x.value))
    requires x.op.OpenSession? ==> !c.kind.H3?
    ensures Accounted(c', log + [x], x.on)
  {
    assert (log + [x])[..|log + [x]| - 1] == log;
    GrantStreams(c, c', log, x);
    GrantKnown(c, c', log, x);
    GrantFin(c, c', log, x);
  }

  /** A record of another core changes nothing. */
  lemma OtherAccounted(c: Core, log: seq<Entry>, x: Entry, g: nat)
    requires Accounted(c, log, g) && x.on != g
    ensures Accounted(c, log + [x], g)
  {
    assert (log + [x])[..|log + [x]| - 1] == log;
    assert forall i :: 0 <= i < |log| ==> (log + [x])[i] == log[i] && (log + [x])[..i + 1] == log[..i + 1];
  }

  // ----- steps that record nothing

  ghost predicate TasksUnrecorded(s: Sys, s': Sys)
  {
    && |s.tasks| <= |s'.tasks|
    && (forall t :: 0 <= t < |s.tasks| ==>
          s'.tasks[t].call == s.tasks[t].call && s'.tasks[t].grants == s.tasks[t].grants
          && s'.tasks[t].stream == s.tasks[t].stream
          && (s.tasks[t].grants != [] ==> s'.tasks[t].on == s.tasks[t].on)
          && (Returns(s'.tasks[t]) ==> s'.tasks[t].phase == s.tasks[t].phase))
    && (forall t :: |s.tasks| <= t < |s'.tasks| ==> s'.tasks[t].grants == [] && !Returns(s'.tasks[t]))
  }

  ghost predicate CoresIdle(s: Sys, s': Sys)
  {
    && Cores(s) <= Cores(s')
    && (forall g :: 0 <= g < Cores(s) ==> Idle(CoreAt(s, g), CoreAt(s', g)))
    && (forall g :: Cores(s) <= g < Cores(s') ==> Blank(CoreAt(s', g)))
  }

  ghost predicate Unrecorded(s: Sys, s': Sys)
  {
    s'.log == s.log && TasksUnrecorded(s, s') && CoresIdle(s, s')
  }

  lemma UnrecordedTruthful(s: Sys, s': Sys)
    requires Indexed(s) && Truthful(s) && Unrecorded(s, s')
    ensures Indexed(s') && Truthful(s')
  {
    assert Indexed(s');
    forall i | 0 <= i < |s'.log| ensures RecordTrue(s', i) {
      assert RecordTrue(s, i);
      assert s.log[i].stage < |s.tasks[s.log[i].task].grants|;
      assert Idle(CoreAt(s, s.log[i].on), CoreAt(s', s.log[i].on));
    }
    forall t | 0 <= t < |s'.tasks| ensures ReturnTrue(s', t) {
      if t < |s.tasks| { assert ReturnTrue(s, t); }
    }
  }

  lemma UnrecordedKeeps(s: Sys, s': Sys)
    requires Recorded(s) && Unrecorded(s, s')
    ensures Recorded(s')
  {
    UnrecordedTruthful(s, s');
    forall g | 0 <= g < Cores(s') ensures Accounted(CoreAt(s', g), s'.log, g) {
      if g < Cores(s) {
        IdleAccounted(CoreAt(s, g), CoreAt(s', g), s.log, g);
      } else {
        forall i | 0 <= i < |s.log| ensures s.log[i].on != g { assert RecordTrue(s, i); }
        BlankAccounted(CoreAt(s', g), s.log, g);
      }
    }
  }

  // ----- appending the record of a task's current stage

  ghost predicate Appended(s: Sys, s': Sys, t: nat, v: Val)
  {
    && Equipped(s, t) && |s.tasks[t].grants| == s.tasks[t].stage < Stages(s.kind, s.tasks[t].call)
    && s'.log == s.log + [Entry(t, s.tasks[t].stage, s.tasks[t].on.value, OpOf(s.tasks[t]), v)]
    && |s'.tasks| == |s.tasks| && s'.tasks == s.tasks[t := s'.tasks[t]]
    && s'.tasks[t].call == s.tasks[t].call && s'.tasks[t].grants == s.tasks[t].grants + [|s.log|]
    && s'.tasks[t].on == s.tasks[t].on
    && s'.tasks[t].stream == (if v.Issued? then v.id else s.tasks[t].stream)
    && (Returns(s'.tasks[t]) ==> s'.tasks[t].phase.outcome.value == v)
    && ShapeOk(OpOf(s.tasks[t]), Value(v))
  }

  /** The core that was asked has moved, the others have not. */
  ghost predicate OneMoved(s: Sys, s': Sys, t: nat, c: Core, v: Val)
    requires Equipped(s, t)
  {
    && Cores(s') == Cores(s) && CoreAt(s', s.tasks[t].on.value) == c
    && (forall g :: 0 <= g < Cores(s) && g != s.tasks[t].on.value ==> CoreAt(s', g) == CoreAt(s, g))
    && Moved(CoreOf(s, t), c, OpOf(s.tasks[t]), Value(v))
  }

  lemma AppendIndexed(s: Sys, s': Sys, t: nat, v: Val)
    requires Indexed(s) && Appended(s, s', t, v)
    ensures Indexed(s')
  {
    assert forall i :: 0 <= i < |s.log| ==> s'.log[i] == s.log[i];
  }

  /** Only a submit changes the remembered stream, and its task has no earlier record. */
  lemma OldRecord(s: Sys, s': Sys, t: nat, c: Core, v: Val, i: nat)
    requires Indexed(s) && Appended(s, s', t, v) && i < |s.log| && RecordTrue(s, i) && OneMoved(s, s', t, c, v)
    ensures RecordTrue(s', i)
  {
    assert s.log[i].stage < |s.tasks[s.log[i].task].grants|;
    assert s'.log[i] == s.log[i];
    if s.log[i].task == t {
      assert !v.Issued?;
    } else {
      assert s'.tasks[s.log[i].task] == s.tasks[s.log[i].task];
    }
  }

  lemma NewRecord(s: Sys, s': Sys, t: nat, c: Core, v: Val)
    requires Appended(s, s', t, v) && OneMoved(s, s', t, c, v)
    ensures RecordTrue(s', |s.log|)
  {}

  lemma AppendReturns(s: Sys, s': Sys, t: nat, v: Val, u: nat)
    requires Indexed(s) && Truthful(s) && Appended(s, s', t, v) && Indexed(s') && u < |s'.tasks|
    ensures ReturnTrue(s', u)
  {
    assert ReturnTrue(s, u);
    if u != t { assert s'.tasks[u] == s.tasks[u]; }
  }

  lemma AppendTruthful(s: Sys, s': Sys, t: nat, c: Core, v: Val)
    requires Indexed(s) && Truthful(s) && Appended(s, s', t, v) && Indexed(s') && OneMoved(s, s', t, c, v)
    ensures Truthful(s')
  {
    forall i | 0 <= i < |s'.log| ensures RecordTrue(s', i) {
      if i < |s.log| {
        assert RecordTrue(s, i);
        OldRecord(s, s', t, c, v, i);
      } else {
        NewRecord(s, s', t, c, v);
      }
    }
    forall u | 0 <= u < |s'.tasks| ensures ReturnTrue(s', u) { AppendReturns(s, s', t, v, u); }
  }

  /** A fresh stream is given to a submit, and one that still waits to an accept: neither was given before. */
  lemma AppendDistinct(s: Sys, s': Sys, t: nat, c: Core, v: Val)
    requires Recorded(s) && Appended(s, s', t, v) && OneMoved(s, s', t, c, v)
    ensures Distinct(s'.log)
  {
    var x := s'.log[|s.log|];
    forall i | 0 <= i < |s.log| && s.log[i].on == x.on
      ensures s.log[i].op.Submit? && x.op.Submit? ==> s.log[i].value != v
      ensures Accepts(s.log[i], x.on) && Accepts(x, x.on) ==> s.log[i].value != v
    {
      assert RecordTrue(s, i) && Accounted(CoreAt(s, x.on), s.log, x.on);
    }
  }

  lemma AppendAccounted(s: Sys, s': Sys, t: nat, c: Core, v: Val)
    requires CoresOk(s) && Recorded(s) && Appended(s, s', t, v) && OneMoved(s, s', t, c, v)
    requires OpOf(s.tasks[t]).OpenSession? ==> !s.kind.H3?
    ensures forall g :: 0 <= g < Cores(s') ==> Accounted(CoreAt(s', g), s'.log, g)
  {
    var x := s'.log[|s.log|];
    forall g | 0 <= g < Cores(s') ensures Accounted(CoreAt(s', g), s'.log, g) {
      if g == x.on {
        GrantAccounted(CoreAt(s, g), c, s.log, x);
      } else {
        OtherAccounted(CoreAt(s, g), s.log, x, g);
      }
    }
  }

  lemma SetCoreAt(s: Sys, g: nat, c: Core)
    requires g < Cores(s)
    ensures var s' := SetCore(s, g, c);
      && Cores(s') == Cores(s) && CoreAt(s', g) == c
      && forall h :: 0 <= h < Cores(s) && h != g ==> CoreAt(s', h) == CoreAt(s, h)
  {}

  lemma GrantMoves(s: Sys, t: nat, c: Core, v: Val)
    requires Equipped(s, t) && Moved(CoreOf(s, t), c, OpOf(s.tasks[t]), Value(v))
    ensures OneMoved(s, Grant(s, t, c, v), t, c, v)
  {
    SetCoreAt(s, s.tasks[t].on.value, c);
    var s1 := SetCore(s, s.tasks[t].on.value, c);
    assert forall h :: 0 <= h < Cores(s) ==> CoreAt(Grant(s, t, c, v), h) == CoreAt(s1, h);
  }

  lemma GrantRecords(s: Sys, t: nat, c: Core, v: Val)
    requires Base(s) && Recorded(s) && Equipped(s, t) && s.tasks[t].phase.Ready?
    requires Moved(CoreOf(s, t), c, OpOf(s.tasks[t]), Value(v)) && (OpOf(s.tasks[t]).OpenSession? ==> !s.kind.H3?)
    ensures Recorded(Grant(s, t, c, v))
  {
    var s' := Grant(s, t, c, v);
    assert TaskOk(s.kind, s.d.now, s.tasks[t]);
    assert Appended(s, s', t, v);
    GrantMoves(s, t, c, v);
    AppendIndexed(s, s', t, v);
    AppendTruthful(s, s', t, c, v);
    AppendDistinct(s, s', t, c, v);
    AppendAccounted(s, s', t, c, v);
  }

  // ----- the pieces of a turn

  /** Only the client's own core moved. */
  lemma OwnCoreIdle(s: Sys, s': Sys)
    requires s'.retired == s.retired && (s'.d.core.Some? <==> s.d.core.Some?)
    requires s.d.core.Some? ==> Idle(s.d.core.value, s'.d.core.value)
    ensures CoresIdle(s, s')
  {
    forall g | 0 <= g < Cores(s) ensures Idle(CoreAt(s, g), CoreAt(s', g)) {
      if g < |s.retired| { SelfIdle(s.retired[g]); }
    }
  }

  /** A driver method ran: the tasks and the record are as before. */
  lemma DriverUnrecorded(s: Sys, d: Client, events: nat)
    requires Recorded(s) && (d.core.Some? <==> s.d.core.Some?)
    requires d.core.Some? ==> Idle(s.d.core.value, d.core.value)
    ensures Recorded(s.(d := d, events := events))
  {
    OwnCoreIdle(s, s.(d := d, events := events));
    UnrecordedKeeps(s, s.(d := d, events := events));
  }

  lemma ProcessUnrecorded(s: Sys)
    requires Base(s) && Recorded(s)
    ensures Recorded(s.(d := Process(s.d)))
  {
    ProcessKeeps(s.d);
    if s.d.core.Some? && !s.d.closed {
      SameCoreIdle(s.d.core.value, Process(s.d).core.value);
      DriverUnrecorded(s, Process(s.d), s.events);
      assert s.(d := Process(s.d), events := s.events) == s.(d := Process(s.d));
    } else {
      assert s.(d := Process(s.d)) == s;
    }
  }

  lemma FailUnrecorded(s: Sys, t: nat, exc: Exc, message: string)
    requires Recorded(s) && t < |s.tasks|
    ensures Recorded(Fail(s, t, exc, message))
  {
    if s.d.core.Some? { SelfIdle(s.d.core.value); }
    TeardownKeepsCore(s.d, "connect failed");
    OwnCoreIdle(s, Fail(s, t, exc, message));
    UnrecordedKeeps(s, Fail(s, t, exc, message));
  }

  lemma TeardownKeepsCore(d: Client, reason: string)
    ensures Teardown(d, reason).core == d.core
  {}

  lemma TriedUnrecorded(s: Sys, t: nat, c: Core, r: Py<Val>)
    requires Recorded(s) && Equipped(s, t) && !Returns(s.tasks[t])
    requires Moved(CoreOf(s, t), c, OpOf(s.tasks[t]), r) && !r.Value?
    requires OpOf(s.tasks[t]).OpenSession? ==> !CoreOf(s, t).kind.H3?
    ensures Recorded(Tried(s, t, c))
  {
    MovedIdle(CoreOf(s, t), c, OpOf(s.tasks[t]), r);
    TriedIdle(s, t, c);
    UnrecordedKeeps(s, Tried(s, t, c));
  }

  lemma TriedIdle(s: Sys, t: nat, c: Core)
    requires Equipped(s, t) && Idle(CoreOf(s, t), c)
    ensures CoresIdle(s, Tried(s, t, c))
  {
    var s' := Tried(s, t, c);
    SetCoreAt(s, s.tasks[t].on.value, c);
    forall g | 0 <= g < Cores(s) ensures Idle(CoreAt(s, g), CoreAt(s', g)) {
      SelfIdle(CoreAt(s, g));
      assert CoreAt(s', g) == CoreAt(SetCore(s, s.tasks[t].on.value, c), g);
    }
  }

  lemma ParkUnrecorded(s: Sys, t: nat)
    requires Recorded(s) && t < |s.tasks|
    ensures Recorded(Park(s, t))
  {
    if s.d.core.Some? { SelfIdle(s.d.core.value); }
    OwnCoreIdle(s, Park(s, t));
    UnrecordedKeeps(s, Park(s, t));
  }

  lemma RaiseRecords(s: Sys, t: nat, c: Core, exc: Exc, message: string)
    requires Recorded(s) && Equipped(s, t) && s.tasks[t].phase.Ready?
    requires Moved(CoreOf(s, t), c, OpOf(s.tasks[t]), Raise(exc, message))
    requires OpOf(s.tasks[t]).OpenSession? ==> !CoreOf(s, t).kind.H3?
    ensures Recorded(AfterAttempt(s, t, c, Raise(exc, message)))
  {
    TriedUnrecorded(s, t, c, Raise(exc, message));
    FailUnrecorded(Tried(s, t, c), t, exc, message);
  }

  lemma ValueRecords(s: Sys, t: nat, c: Core, v: Val)
    requires Base(s) && Recorded(s) && Equipped(s, t) && s.tasks[t].phase.Ready?
    requires Moved(CoreOf(s, t), c, OpOf(s.tasks[t]), Value(v)) && (OpOf(s.tasks[t]).OpenSession? ==> !s.kind.H3?)
    ensures Recorded(AfterAttempt(s, t, c, Value(v)))
  {
    GrantKeeps(s, t, c, v);
    GrantRecords(s, t, c, v);
    ProcessUnrecorded(Grant(s, t, c, v));
    AfterValue(s, t, c, v);
  }

  lemma AfterValue(s: Sys, t: nat, c: Core, v: Val)
    requires Equipped(s, t)
    ensures var s1, s' := Grant(s, t, c, v), AfterAttempt(s, t, c, Value(v)); s' == s1 || s' == s1.(d := Process(s1.d))
  {}

  lemma NoneYetRecords(s: Sys, t: nat, c: Core)
    requires Recorded(s) && Equipped(s, t) && s.tasks[t].phase.Ready?
    requires Moved(CoreOf(s, t), c, OpOf(s.tasks[t]), NoneYet)
    requires OpOf(s.tasks[t]).OpenSession? ==> !CoreOf(s, t).kind.H3?
    ensures Recorded(AfterAttempt(s, t, c, NoneYet))
  {
    TriedUnrecorded(s, t, c, NoneYet);
    FailUnrecorded(Tried(s, t, c), t, TimeoutError, TimeoutText(s.kind));
    ParkUnrecorded(Tried(s, t, c), t);
  }

  lemma AttemptRecords(s: Sys, t: nat, c: Core, r: Py<Val>)
    requires Base(s) && Recorded(s) && Equipped(s, t) && s.tasks[t].phase.Ready?
    requires Moved(CoreOf(s, t), c, OpOf(s.tasks[t]), r)
    requires OpOf(s.tasks[t]).OpenSession? ==> !s.kind.H3?
    ensures Recorded(AfterAttempt(s, t, c, r))
  {
    match r
    case Raise(exc, message) => RaiseRecords(s, t, c, exc, message);
    case Value(v) => ValueRecords(s, t, c, v);
    case NoneYet => NoneYetRecords(s, t, c);
  }

  lemma TurnRecords(s: Sys, t: nat, a: Answer, e: Effect)
    requires Base(s) && Recorded(s) && TurnOk(s, t, a, e)
    ensures Recorded(Turn(s, t, a, e))
  {
    if s.d.closed {
      FailUnrecorded(s, t, ConnectionError, GivenReason(s.d));
    } else {
      var (c, r) := Attempt(CoreOf(s, t), OpOf(s.tasks[t]), a, e);
      AttemptMoves(CoreOf(s, t), OpOf(s.tasks[t]), a, e);
      AttemptRecords(s, t, c, r);
    }
  }

  lemma ResumeRecords(s: Sys, t: nat, a: Answer, e: Effect)
    requires Base(s) && Recorded(s) && Legal(s, Resume(t, a, e))
    ensures Recorded(DoResume(s, t, a, e))
  {
    var s1 := Unpark(s, t);
    UnparkKeeps(s, t);
    if s.d.core.Some? { SelfIdle(s.d.core.value); }
    OwnCoreIdle(s, s1);
    UnrecordedKeeps(s, s1);
    match s.tasks[t].interrupt
    case CancelRequested => FailUnrecorded(s1, t, CancelledError, "");
    case Expired => FailUnrecorded(s1, t, TimeoutError, TimeoutText(s.kind));
    case Calm => TurnRecords(s1, t, a, e);
  }

  // ----- set-up

  lemma StartIdle(c: Core, initialized: bool, attempting: bool, e: Effect)
    requires CoreOk(c) && !c.engine.session && StartEffectOk(c, e)
    ensures var c' := PyStart(c, initialized, attempting, e).0; Idle(c, c') && Steady(c, c')
  {
    StartKeeps(c, initialized, attempting, e);
    StartKeepsName(c, initialized, attempting, e);
    AfterIdle(c, PyStart(c, initialized, attempting, e).0);
  }

  lemma StartKeepsName(c: Core, initialized: bool, attempting: bool, e: Effect)
    requires CoreOk(c) && StartEffectOk(c, e)
    ensures Start(c, initialized, attempting, e).0.serverName == c.serverName
  {
    if !c.engine.connected && initialized {
      ErrorTextIsFree(c, Clear(c));
      ResetKeeps(Clear(c));
      var c1 := ResetSession(Clear(c));
      var c2 := c1.(engine := c1.engine.(session := true));
      assert CoreOk(c2) && LedgerOf(c2) == LedgerOf(c);
      ApplyKeeps(c2, e);
    }
  }

  /** What starting one core and attaching a transport does to the cores. */
  ghost predicate StartedOne(s: Sys, s': Sys, t: nat, c: Core)
    requires Equipped(s, t)
  {
    && Cores(s') == Cores(s)
    && forall g :: 0 <= g < Cores(s) ==>
         SameCore(if g == s.tasks[t].on.value then c else CoreAt(s, g), CoreAt(s', g))
  }

  lemma EndpointCores(s: Sys, t: nat, initialized: bool, attempting: bool, e: Effect)
    requires Base(s) && Equipped(s, t) && StartEffectOk(CoreOf(s, t), e)
    ensures var s' := DoEndpoint(s, t, None, initialized, attempting, e);
      StartedOne(s, s', t, PyStart(CoreOf(s, t), initialized, attempting, e).0)
  {
    var (c, r) := PyStart(CoreOf(s, t), initialized, attempting, e);
    StartKeeps(CoreOf(s, t), initialized, attempting, e);
    BegunShape(s, t, initialized, attempting, e);
    StartedCores(s, DoEndpoint(s, t, None, initialized, attempting, e), t, c, !r.Raise?);
  }

  lemma StartedCores(s: Sys, s': Sys, t: nat, c: Core, started: bool)
    requires ClientOk(s.d) && (s.retired != [] ==> s.d.core.Some?)
    requires Equipped(s, t) && CoreOk(c) && c.past.popped == CoreOf(s, t).past.popped
    requires s'.retired == SetCore(s, s.tasks[t].on.value, c).retired
    requires s'.d == Begun(SetCore(s, s.tasks[t].on.value, c).d, started)
    ensures StartedOne(s, s', t, c)
  {
    StartedClient(s, t, c, started);
    BegunKeeps(SetCore(s, s.tasks[t].on.value, c).d, started);
    StartedPlaces(s, s', t, c);
  }

  /** The started core in its place, whichever that is, the others in theirs. */
  lemma StartedPlaces(s: Sys, s': Sys, t: nat, c: Core)
    requires (s.retired != [] ==> s.d.core.Some?) && Equipped(s, t) && s'.d.core.Some? && s.d.core.Some?
    requires s'.retired == SetCore(s, s.tasks[t].on.value, c).retired
    requires SameCore(if s.tasks[t].on.value == |s.retired| then c else s.d.core.value, s'.d.core.value)
    ensures StartedOne(s, s', t, c)
  {}

  lemma EndpointRecords(s: Sys, t: nat, initialized: bool, attempting: bool, e: Effect)
    requires Base(s) && Recorded(s) && Equipped(s, t) && s.tasks[t].phase.Attaching?
    requires StartEffectOk(CoreOf(s, t), e)
    ensures Recorded(DoEndpoint(s, t, None, initialized, attempting, e))
  {
    var s' := DoEndpoint(s, t, None, initialized, attempting, e);
    var c := PyStart(CoreOf(s, t), initialized, attempting, e).0;
    assert PhaseOk(s, t);
    EndpointCores(s, t, initialized, attempting, e);
    StartIdle(CoreOf(s, t), initialized, attempting, e);
    forall g | 0 <= g < Cores(s) ensures Idle(CoreAt(s, g), CoreAt(s', g)) {
      SameIsIdle(CoreAt(s, g), if g == s.tasks[t].on.value then c else CoreAt(s, g), CoreAt(s', g));
    }
    EndpointTasks(s, t, initialized, attempting, e);
    UnrecordedKeeps(s, s');
  }

  lemma SameIsIdle(c: Core, c1: Core, c2: Core)
    requires (c1 == c || Idle(c, c1)) && SameCore(c1, c2)
    ensures Idle(c, c2)
  {}

  lemma EndpointTasks(s: Sys, t: nat, initialized: bool, attempting: bool, e: Effect)
    requires Equipped(s, t)
    ensures var s' := DoEndpoint(s, t, None, initialized, attempting, e); s'.log == s.log && TasksUnrecorded(s, s')
  {
    BegunShape(s, t, initialized, attempting, e);
    OneTaskUnrecorded(s, DoEndpoint(s, t, None, initialized, attempting, e), t);
  }

  lemma OneTaskUnrecorded(s: Sys, s': Sys, t: nat)
    requires t < |s.tasks| == |s'.tasks| && s'.tasks == s.tasks[t := s'.tasks[t]] && !Returns(s'.tasks[t])
    requires s'.tasks[t].call == s.tasks[t].call && s'.tasks[t].grants == s.tasks[t].grants
    requires s'.tasks[t].stream == s.tasks[t].stream
    requires s.tasks[t].grants != [] ==> s'.tasks[t].on == s.tasks[t].on
    ensures TasksUnrecorded(s, s')
  {}

  /** No request was sent and the session's request state is as before. */
  predicate Steady(c: Core, c': Core)
  {
    c'.past.requests == c.past.requests && c'.connectRequested == c.connectRequested && c'.serverName == c.serverName
  }

  lemma EnlistRecords(s: Sys, t: nat, c: Core)
    requires Base(s) && Recorded(s) && t < |s.tasks| && s.tasks[t].phase.Resolving? && Blank(c)
    ensures Recorded(Enlist(s, t, c))
  {
    var s' := Enlist(s, t, c);
    EnlistIdle(s, t, c);
    assert TaskOk(s.kind, s.d.now, s.tasks[t]);
    OneTaskUnrecorded(s, s', t);
    UnrecordedKeeps(s, s');
  }

  lemma EnlistIdle(s: Sys, t: nat, c: Core)
    requires (s.retired != [] ==> s.d.core.Some?) && t < |s.tasks| && Blank(c)
    ensures CoresIdle(s, Enlist(s, t, c))
  {
    EnlistCores(s, t, c);
    forall g | 0 <= g < Cores(s) ensures Idle(CoreAt(s, g), CoreAt(Enlist(s, t, c), g)) { SelfIdle(CoreAt(s, g)); }
  }

  // ----- callbacks

  /** The core as the callbacks leave it: nothing accepted, nothing handed out. */
  lemma PacketIdle(d: Client, data: Bytes, e: Effect)
    requires ClientOk(d) && d.core.Some? && !d.closed && |data| <= MAX_INPUT_BYTES && EffectOk(d.core.value, e)
    ensures var d' := OnReceive(d, data, e);
      d'.core.Some? && Idle(d.core.value, d'.core.value) && Steady(d.core.value, d'.core.value)
  {
    if !d.core.value.engine.session && data != [] {
      ReceiveBeforeStart(d, data, e);
    } else {
      ReceiveDetects(d, data, e);
      AfterIdle(d.core.value, OnReceive(d, data, e).core.value);
    }
  }

  lemma CloseIdle(d: Client, e: Effect)
    requires ClientOk(d) && d.core.Some? && EffectOk(d.core.value, e)
    ensures var d' := CloseClient(d, e);
      d'.core.Some? && Idle(d.core.value, d'.core.value) && Steady(d.core.value, d'.core.value)
  {
    if !d.closed {
      CloseSendsEverything(d, e);
      AfterIdle(d.core.value, CloseClient(d, e).core.value);
    } else {
      SelfIdle(d.core.value);
    }
  }

  lemma TimerIdle(d: Client, handle: nat, e: Effect)
    requires ClientOk(d) && d.core.Some? && EffectOk(d.core.value, e)
    ensures var d' := OnTimeout(d, handle, e);
      d'.core.Some? && Idle(d.core.value, d'.core.value) && Steady(d.core.value, d'.core.value)
  {
    if d.closed {
      SelfIdle(d.core.value);
    } else {
      TimeoutDetects(d, handle, e);
      AfterIdle(d.core.value, OnTimeout(d, handle, e).core.value);
    }
  }

  lemma CallbackIdle(s: Sys, act: Action)
    requires Base(s) && Legal(s, act) && IsCallback(act) && s.d.core.Some?
    ensures var d := Step(s, act).d;
      d.core.Some? && Idle(s.d.core.value, d.core.value) && Steady(s.d.core.value, d.core.value)
  {
    SelfIdle(s.d.core.value);
    match act
    case Packet(data, e) => if !s.d.closed { PacketIdle(s.d, data, e); }
    case TimerFires(handle, e) => TimerIdle(s.d, handle, e);
    case ConnectionLost(cause) => TeardownKeepsCore(s.d, if cause.None? then "connection lost" else cause.value);
    case CloseCall(e) => CloseIdle(s.d, e);
  }

  /** A callback leaves the tasks and the record alone. */
  lemma CallbackEffect(s: Sys, act: Action) returns (d: Client, events: nat)
    requires Base(s) && Legal(s, act) && IsCallback(act)
    ensures Step(s, act) == s.(d := d, events := events)
    ensures (d.core.Some? <==> s.d.core.Some?)
            && (d.core.Some? ==> Idle(s.d.core.value, d.core.value) && Steady(s.d.core.value, d.core.value))
  {
    d, events := Step(s, act).d, Step(s, act).events;
    CallbackShape(s, act);
    if s.d.core.Some? { CallbackIdle(s, act); }
  }

  lemma SignalIdle(c: Core, id: StreamId, e: Effect)
    requires CoreOk(c) && AppEffectOk(c, e)
    ensures var c' := SignalStream(c, id, e).0; Idle(c, c') && Steady(c, c')
  {
    SignalKeeps(c, id, e);
    AfterIdle(c, SignalStream(c, id, e).0);
  }

  /** One core moved, and nothing else: the record is as true as before. */
  lemma SetCoreRecords(s: Sys, g: nat, c: Core)
    requires Recorded(s) && g < Cores(s) && Idle(CoreAt(s, g), c)
    ensures Recorded(SetCore(s, g, c))
  {
    SetCoreAt(s, g, c);
    forall h | 0 <= h < Cores(s) ensures Idle(CoreAt(s, h), CoreAt(SetCore(s, g, c), h)) { SelfIdle(CoreAt(s, h)); }
    UnrecordedKeeps(s, SetCore(s, g, c));
  }

  lemma SignalRecords(s: Sys, id: StreamId, on: nat, e: Effect)
    requires Base(s) && Recorded(s) && on < Cores(s) && AppEffectOk(CoreAt(s, on), e)
    ensures Recorded(DoSignal(s, id, on, e))
  {
    var c := SignalStream(CoreAt(s, on), id, e).0;
    SignalIdle(CoreAt(s, on), id, e);
    SignalSettles(CoreAt(s, on), id, e);
    CoreMoves(s, on, c);
    SetCoreRecords(s, on, c);
    ProcessUnrecorded(SetCore(s, on, c));
  }

  /** Steps that move at most one task and the clock. */
  lemma QuietRecords(s: Sys, act: Action)
    requires Recorded(s) && Legal(s, act)
    requires act.Tick? || act.Invoke? || act.Expire? || act.Cancel?
    ensures Recorded(Step(s, act))
  {
    QuietUnrecorded(s, act);
    if s.d.core.Some? { SelfIdle(s.d.core.value); }
    OwnCoreIdle(s, Step(s, act));
    UnrecordedKeeps(s, Step(s, act));
  }

  lemma QuietUnrecorded(s: Sys, act: Action)
    requires Legal(s, act) && (act.Tick? || act.Invoke? || act.Expire? || act.Cancel?)
    ensures var s' := Step(s, act);
      s'.log == s.log && TasksUnrecorded(s, s') && s'.retired == s.retired && s'.d.core == s.d.core
  {
    if act.Expire? || act.Cancel? {
      OneTaskUnrecorded(s, Step(s, act), act.t);
    } else if act.Invoke? {
      InvokeUnrecorded(s, act.call, act.timeout, act.on);
    }
  }

  lemma InvokeUnrecorded(s: Sys, call: Call, timeout: Option<int>, on: nat)
    ensures var s' := DoInvoke(s, call, timeout, on);
      s'.log == s.log && TasksUnrecorded(s, s') && s'.retired == s.retired && s'.d == s.d
  {
    var s' := DoInvoke(s, call, timeout, on);
    InvokedIsNew(s, call, timeout, on);
    assert s'.tasks == s.tasks + [s'.tasks[|s.tasks|]];
  }

  lemma InvokedIsNew(s: Sys, call: Call, timeout: Option<int>, on: nat)
    ensures var s' := DoInvoke(s, call, timeout, on);
      && |s'.tasks| == |s.tasks| + 1 && s'.tasks[..|s.tasks|] == s.tasks
      && s'.tasks[|s.tasks|].grants == [] && !Returns(s'.tasks[|s.tasks|])
      && s'.log == s.log && s'.retired == s.retired && s'.d == s.d
  {}

  lemma FinishUnrecorded(s: Sys, t: nat, outcome: Outcome)
    requires Recorded(s) && t < |s.tasks| && outcome.Failed?
    ensures Recorded(Finish(s, t, outcome))
  {
    if s.d.core.Some? { SelfIdle(s.d.core.value); }
    OwnCoreIdle(s, Finish(s, t, outcome));
    OneTaskUnrecorded(s, Finish(s, t, outcome), t);
    UnrecordedKeeps(s, Finish(s, t, outcome));
  }

  lemma SetupRecords(s: Sys, act: Action)
    requires Base(s) && Recorded(s) && Legal(s, act) && (act.Lookup? || act.Endpoint?)
    ensures Recorded(Step(s, act))
  {
    if act.failure.Some? {
      assert Step(s, act) == Finish(s, act.t, Failed(act.failure.value, "set-up failed"));
      FinishUnrecorded(s, act.t, Failed(act.failure.value, "set-up failed"));
    } else if act.Lookup? {
      EnlistRecords(s, act.t, NewCore(s.kind, act.serverName));
    } else {
      EndpointRecords(s, act.t, act.initialized, act.attempting, act.e);
      assert Step(s, act) == DoEndpoint(s, act.t, None, act.initialized, act.attempting, act.e);
    }
  }

  lemma TaskRecords(s: Sys, act: Action)
    requires Base(s) && Recorded(s) && Legal(s, act) && (act.Continue? || act.Resume? || act.Signal?)
    ensures Recorded(Step(s, act))
  {
    match act
    case Continue(t, a, e) => TurnRecords(s, t, a, e);
    case Resume(t, a, e) => ResumeRecords(s, t, a, e);
    case Signal(id, on, e) => SignalRecords(s, id, on, e);
  }

  lemma StepKeepsRecord(s: Sys, act: Action)
    requires Base(s) && Recorded(s) && Legal(s, act)
    ensures Recorded(Step(s, act))
  {
    if IsCallback(act) {
      var d, events := CallbackEffect(s, act);
      DriverUnrecorded(s, d, events);
    } else if act.Tick? || act.Invoke? || act.Expire? || act.Cancel? {
      QuietRecords(s, act);
    } else if act.Lookup? || act.Endpoint? {
      SetupRecords(s, act);
    } else {
      TaskRecords(s, act);
    }
  }

  lemma {:induction false} RunKeepsRecord(s: Sys, acts: seq<Action>)
    requires Base(s) && Recorded(s) && LegalRun(s, acts)
    ensures Base(Run(s, acts)) && Recorded(Run(s, acts))
    decreases |acts|
  {
    if acts != [] {
      StepKeepsBase(s, acts[0]);
      StepKeepsRecord(s, acts[0]);
      RunKeepsRecord(Step(s, acts[0]), acts[1..]);
    }
  }
}
