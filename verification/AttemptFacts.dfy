/** What one attempt may change, whatever the library answers: a failed attempt
    has no effect, a successful one has exactly its own, and no attempt makes
    another operation ready. */
module AttemptFacts {
  import opened Prelude
  import opened Engine
  import opened Glue
  import opened GlueInvariant
  import opened Binding

  /** The streams that the peer has opened in one direction and nobody has accepted. */
  function Waiting(c: Core, unidirectional: bool): set<StreamId>
  {
    set id | id in c.engine.incoming && IsUnidirectional(id) == unidirectional
  }

  /** The library's contract for an attempt. */
  predicate AttemptOk(c: Core, op: Op, a: Answer, e: Effect)
  {
    && AppEffectOk(c, e)
    && (op.Open? || op.Submit? || op.OpenSession? ==> FreshId(c, a))
    && (op.Read? && op.id in c.engine.streams ==> RegionOk(c.engine.streams[op.id], a.region))
    && (op.Accept? ==> if a.stream.Some? then a.stream.value in Waiting(c, op.unidirectional)
                       else Waiting(c, op.unidirectional) == {})
    && (op.Submit? || op.Take? ==> c.kind.H3?)
    && (op.OpenSession? || op.AwaitSession? ==> c.kind.Wt?)
    && (op.Read? || op.Write? || op.Open? || op.Accept? || op.SendDgram? || op.ReceiveDgram? ==> !c.kind.H3?)
  }

  function SentOn(s: Streams, id: StreamId): seq<Payload> { if Had(s, id) then Last(s, id).sent else [] }

  function DeliveredOn(s: Streams, id: StreamId): Bytes { if Had(s, id) then Last(s, id).delivered else [] }

  function Written(op: Op, r: Py<Val>, id: StreamId): seq<Payload>
  {
    if r.Value? && op.Write? && op.id == id then [Payload(op.data, op.fin)] else []
  }

  function Delivered(op: Op, r: Py<Val>, id: StreamId): Bytes
  {
    if r.Value? && op.Read? && op.id == id && r.value.Chunk? then r.value.data else []
  }

  function Received(op: Op, r: Py<Val>): seq<Bytes>
  {
    if r.Value? && op.ReceiveDgram? && r.value.Datagram? then [r.value.data] else []
  }

  /** Exactly the accepted payloads were appended, exactly the returned bytes read, on every stream that was
      there, also if the library dropped it in that very call. */
  ghost predicate DataMoved(s: Streams, s': Streams, issued: set<StreamId>, op: Op, r: Py<Val>)
  {
    && (forall id :: Had(s, id) ==> Had(s', id))
    && forall id :: Had(s', id) ==>
      && (Had(s, id) || id !in issued)
      && Last(s', id).sent == SentOn(s, id) + Written(op, r, id)
      && Last(s', id).delivered == DeliveredOn(s, id) + Delivered(op, r, id)
      && (Had(s, id) ==> Ended(Last(s, id), Last(s', id)))
  }

  /** The streams after an attempt. */
  ghost predicate StreamsMoved(c: Core, c': Core, op: Op, r: Py<Val>)
  {
    && ((op.Write? || op.Read?) && r.Value? ==> op.id in c.engine.issued && Had(StreamsOf(c'), op.id))
    && c'.engine.incoming <= c.engine.incoming
    && (op.Accept? && r.Value? && r.value.Opened? ==>
          r.value.id in Waiting(c, op.unidirectional) && r.value.id !in c'.engine.incoming)
    && (op.Read? && r.Value? && r.value.Chunk? && r.value.fin ==>
          Last(StreamsOf(c'), op.id).finReceived && Last(StreamsOf(c'), op.id).unread == [])
    && DataMoved(StreamsOf(c), StreamsOf(c'), c.engine.issued, op, r)
  }

  /** What every attempt leaves alone. */
  predicate Untouched(c: Core, c': Core)
  {
    && c'.kind == c.kind && c'.engine.session == c.engine.session && IsConnected(c') == IsConnected(c)
    && c'.past.popped == c.past.popped && c.engine.issued <= c'.engine.issued && c'.serverName == c.serverName
    && c'.past.completed == c.past.completed
  }

  predicate ShapeOk(op: Op, r: Py<Val>)
  {
    && (r.Raise? ==> r.exc != TimeoutError && r.exc != CancelledError)
    && (r.Value? ==>
      match op
      case Read(_, _) => r.value.Chunk?
      case Open(_) => r.value.Opened?
      case Accept(_) => r.value.Opened?
      case ReceiveDgram => r.value.Datagram?
      case Submit(_, _, _) => r.value.Issued?
      case Take(_) => r.value.Reply?
      case _ => r.value.Done?)
  }

  /** The requests sent and responses taken by an attempt. */
  predicate RequestsMoved(c: Core, c': Core, op: Op, r: Py<Val>)
  {
    && (!op.Submit? && !op.OpenSession? ==>
          c'.past.requests == c.past.requests && c'.connectRequested == c.connectRequested)
    && (op.Submit? && r.Value? && r.value.Issued? ==>
          r.value.id !in c.engine.issued && r.value.id in c'.engine.issued
          && BuildBlock(op.headers).Some?
          && c'.past.requests == c.past.requests + [Request(r.value.id, BuildBlock(op.headers).value, op.body, op.fin)])
    && (op.Submit? && !r.Value? ==> c'.past.requests == c.past.requests)
    && (!op.Take? || !r.Value? ==> c'.past.collected == c.past.collected && c'.responses == c.responses)
    && (op.Take? && r.Value? && r.value.Reply? ==>
          op.id in c.past.completed && r.value.response == Answering(op.id, c.past.completed[op.id])
          && op.id !in c.past.collected
          && c'.past.collected == c.past.collected + {op.id})
  }

  /** An operation whose outcome the state decides is ripe when an attempt would return a value now. */
  predicate Ripe(c: Core, op: Op)
  {
    match op
    case AwaitConnected => IsConnected(c)
    case AwaitSession => IsSessionReady(c)
    case Read(id, _) => Usable(c) && id in c.engine.streams
                        && (c.engine.streams[id].unread != [] || c.engine.streams[id].finReceived)
    case ReceiveDgram => (c.kind.Wt? ==> Usable(c)) && c.visitor.datagrams != []
    case Take(id) => id in c.responses
    case Accept(u) => Usable(c) && Waiting(c, u) != {}
    case _ => false
  }

  /** Nothing became available that was not available before. */
  predicate Calmer(c: Core, c': Core)
  {
    && c'.kind == c.kind && (IsConnected(c') ==> IsConnected(c)) && (Usable(c') ==> Usable(c))
    && (IsSessionReady(c') ==> IsSessionReady(c))
    && (c'.visitor.datagrams != [] ==> c.visitor.datagrams != [])
    && c'.responses.Keys <= c.responses.Keys
    && c'.engine.incoming <= c.engine.incoming
    && forall id :: id in c'.engine.streams ==>
      if id in c.engine.streams
      then (c'.engine.streams[id].unread != [] ==> c.engine.streams[id].unread != [])
           && (c'.engine.streams[id].finReceived ==> c.engine.streams[id].finReceived)
      else c'.engine.streams[id].unread == [] && !c'.engine.streams[id].finReceived
  }

  lemma CalmerNeverRipens(c: Core, c': Core, op: Op)
    requires Calmer(c, c') && Ripe(c', op)
    ensures Ripe(c, op)
  {
    if op.Accept? { assert Waiting(c', op.unidirectional) <= Waiting(c, op.unidirectional); }
  }

  /** Ripe is exactly "the attempt returns a value" for the operations that the state decides. */
  lemma RipeDecides(c: Core, op: Op, a: Answer, e: Effect)
    requires CoreOk(c) && AttemptOk(c, op, a, e)
    requires op.AwaitConnected? || op.AwaitSession? || op.Take? || op.ReceiveDgram? || op.Accept?
             || (op.Read? && 0 < op.maxBytes <= MAX_INPUT_BYTES)
    ensures Attempt(c, op, a, e).1.Value? <==> Ripe(c, op)
  {
    if op.Read? && Usable(Clear(c)) && op.id in c.engine.streams {
      assert HasData(Peek(c.engine.streams[op.id], a.region)) <==> Ripe(c, op);
    }
  }

  /** What holds whatever the attempt was for. */
  ghost predicate Settled(c: Core, c': Core) { CoreOk(c') && Untouched(c, c') && Calmer(c, c') }

  /** Everything an attempt promises. */
  ghost predicate Moved(c: Core, c': Core, op: Op, r: Py<Val>)
  {
    && Settled(c, c') && ShapeOk(op, r) && StreamsMoved(c, c', op, r) && RequestsMoved(c, c', op, r)
    && c'.past.taken == c.past.taken + Received(op, r)
  }

  /** Attempts never raise the two exceptions that `_wait` raises itself. */
  lemma AttemptRaises(c: Core, op: Op, a: Answer, e: Effect)
    requires op.Read? && op.id in c.engine.streams ==> RegionOk(c.engine.streams[op.id], a.region)
    ensures var r := Attempt(c, op, a, e).1; r.Raise? ==> r.exc != TimeoutError && r.exc != CancelledError
  {}

  lemma NoDataMoves(s: Streams, issued: set<StreamId>, op: Op, r: Py<Val>)
    requires r.Value? ==> !op.Read? && !op.Write?
    ensures DataMoved(s, s, issued, op, r)
  {
    forall id | Had(s, id)
      ensures Last(s, id).sent == SentOn(s, id) + Written(op, r, id)
      ensures Last(s, id).delivered == DeliveredOn(s, id) + Delivered(op, r, id)
    {
      assert Last(s, id).sent + [] == Last(s, id).sent && Last(s, id).delivered + [] == Last(s, id).delivered;
    }
  }

  /** An attempt that returns nothing changes at most last_error. */
  lemma NothingMoves(c: Core, c': Core, op: Op, r: Py<Val>)
    requires CoreOk(c) && !r.Value? && ShapeOk(op, r) && c' == c.(lastError := c'.lastError)
    ensures Moved(c, c', op, r)
  {
    ErrorTextIsFree(c, c');
    NoDataMoves(StreamsOf(c), c.engine.issued, op, r);
    assert RequestsMoved(c, c', op, r);
    assert Calmer(c, c');
  }

  /** The library's reaction to the call disturbs nothing that the attempt did. */
  lemma ThenApply(c: Core, c1: Core, op: Op, r: Py<Val>, e: Effect)
    requires CoreOk(c) && Moved(c, c1, op, r) && AppEffectOk(c1, e) && c1.engine.session
    ensures Moved(c, Apply(c1, e), op, r) && Apply(c1, e).connectRequested == c1.connectRequested
    ensures Apply(c1, e).past.requests == c1.past.requests && Apply(c1, e).hasTransport == c1.hasTransport
    ensures Apply(c1, e).hasVisitor == c1.hasVisitor && Apply(c1, e).kind == c1.kind
  {
    ApplyAppKeeps(c1, e);
  }

  lemma ReadStep(c: Core, op: Op, s1: Stream, data: Bytes, fin: bool)
    requires CoreOk(c) && op.Read? && op.id in c.engine.streams && op.maxBytes > 0
    requires (s1, data, fin) == ReadUpTo(c.engine.streams[op.id], op.maxBytes)
    ensures Moved(c, Clear(c).(engine := c.engine.(streams := c.engine.streams[op.id := s1])),
                  op, Value(Chunk(data, fin)))
  {
    assert Had(StreamsOf(c), op.id);
    ReadUpToSplits(c.engine.streams[op.id], op.maxBytes);
    OneStreamKeeps(c, op.id, s1);
    OneStreamReads(c, op, s1, data, fin);
  }

  lemma OneStreamReads(c: Core, op: Op, s1: Stream, data: Bytes, fin: bool)
    requires op.Read? && op.id in c.engine.streams && op.id in c.engine.issued && op.maxBytes > 0
    requires (s1, data, fin) == ReadUpTo(c.engine.streams[op.id], op.maxBytes)
    ensures StreamsMoved(c, Clear(c).(engine := c.engine.(streams := c.engine.streams[op.id := s1])),
                         op, Value(Chunk(data, fin)))
  {
    assert forall x: Bytes :: x + [] == x;
  }

  /** A stream on which nothing became available takes the place of itself. */
  lemma OneStreamKeeps(c: Core, id: StreamId, s1: Stream)
    requires CoreOk(c) && id in c.engine.streams && StreamOk(s1)
    requires (s1.unread != [] ==> c.engine.streams[id].unread != [])
    requires (s1.finReceived ==> c.engine.streams[id].finReceived)
    ensures Settled(c, Clear(c).(engine := c.engine.(streams := c.engine.streams[id := s1])))
  {
    var c' := Clear(c).(engine := c.engine.(streams := c.engine.streams[id := s1]));
    PutKeeps(StreamsOf(c), id, s1, c.engine.issued);
    assert StreamsOf(c') == Put(StreamsOf(c), id, s1) && CoreOk(c');
  }

  /** A read moves a prefix of the unread bytes to the delivered ones, and at least one if there is any. */
  lemma ReadUpToSplits(s: Stream, n: nat)
    requires n > 0
    ensures var (s1, data, fin) := ReadUpTo(s, n);
      && s.unread == data + s1.unread && s1.delivered == s.delivered + data && (StreamOk(s) ==> StreamOk(s1))
      && s1.sent == s.sent && s1.finReceived == s.finReceived && (s1.unread != [] ==> s.unread != [])
      && (data == [] <==> s.unread == [])
  {
    var (s1, data, fin) := ReadUpTo(s, n);
    assert s.unread == data + s1.unread;
    assert s.delivered + (data + s1.unread) == (s.delivered + data) + s1.unread;
  }

  /** The object once the library has handed out what a read asks for. */
  function Reading(c: Core, op: Op): Core
    requires op.Read? && op.id in c.engine.streams
  {
    Clear(c).(engine := c.engine.(streams := c.engine.streams[
      op.id := ReadUpTo(c.engine.streams[op.id], op.maxBytes).0]))
  }

  lemma OpenTakes(c: Core, op: Op, region: nat, e: Effect)
    requires op.Read? && op.maxBytes > 0 && op.id in c.engine.streams && RegionOk(c.engine.streams[op.id], region)
    ensures var (c', st, data, fin) := ReadOpen(Clear(c), op.id, op.maxBytes, region, e);
      if st == OK
      then c' == Apply(Reading(c, op), e)
           && var (s1, data1, fin1) := ReadUpTo(c.engine.streams[op.id], op.maxBytes); data == data1 && fin == fin1
      else c' == Clear(c)
  {
    var s := c.engine.streams[op.id];
    if s.unread == [] {
      assert ReadUpTo(s, op.maxBytes).0 == s;
      assert c.engine.streams[op.id := s] == c.engine.streams;
    }
  }

  lemma ReadTakes(c: Core, op: Op, region: nat, e: Effect)
    requires op.Read? && op.maxBytes > 0 && (op.id in c.engine.streams ==> RegionOk(c.engine.streams[op.id], region))
    ensures var (c', st, data, fin) := ReadStream(c, op.id, op.maxBytes, region, e);
      if st == OK
      then op.id in c.engine.streams && Usable(c) && c' == Apply(Reading(c, op), e)
           && var (s1, data1, fin1) := ReadUpTo(c.engine.streams[op.id], op.maxBytes); data == data1 && fin == fin1
      else c' == c.(lastError := c'.lastError)
  {
    var c0 := Clear(c);
    if Usable(c0) && op.id in c0.engine.streams {
      assert ReadStream(c, op.id, op.maxBytes, region, e) == ReadOpen(c0, op.id, op.maxBytes, region, e);
      OpenTakes(c, op, region, e);
    }
  }

  lemma ReadOutcome(c: Core, op: Op, a: Answer, e: Effect)
    requires op.Read? && (op.id in c.engine.streams ==> RegionOk(c.engine.streams[op.id], a.region))
    ensures var (c', r) := Attempt(c, op, a, e);
      if r.Value?
      then op.id in c.engine.streams && op.maxBytes > 0 && Usable(c) && c' == Apply(Reading(c, op), e)
           && var (s1, data, fin) := ReadUpTo(c.engine.streams[op.id], op.maxBytes); r == Value(Chunk(data, fin))
      else c' == c.(lastError := c'.lastError)
  {
    assert Attempt(c, op, a, e) == PyRead(c, op.id, op.maxBytes, a.region, e);
    if op.maxBytes > 0 { ReadTakes(c, op, a.region, e); }
  }

  lemma ReadMoves(c: Core, op: Op, a: Answer, e: Effect)
    requires CoreOk(c) && op.Read? && AttemptOk(c, op, a, e)
    ensures var (c', r) := Attempt(c, op, a, e); Moved(c, c', op, r)
  {
    var (c', r) := Attempt(c, op, a, e);
    AttemptRaises(c, op, a, e);
    ReadOutcome(c, op, a, e);
    if r.Value? {
      var (s1, data, fin) := ReadUpTo(c.engine.streams[op.id], op.maxBytes);
      ReadStep(c, op, s1, data, fin);
      ThenApply(c, Reading(c, op), op, r, e);
    } else {
      NothingMoves(c, c', op, r);
    }
  }

  /** The object once the library has accepted a payload. */
  function Accepting(c: Core, op: Op): Core
    requires op.Write? && op.id in c.engine.streams
  {
    var s := c.engine.streams[op.id];
    Clear(c).(engine := c.engine.(streams := c.engine.streams[
      op.id := s.(sent := s.sent + [Payload(op.data, op.fin)])]))
  }

  lemma WriteStep(c: Core, op: Op)
    requires CoreOk(c) && op.Write? && op.id in c.engine.streams
    ensures Moved(c, Accepting(c, op), op, Value(Done))
  {
    WriteSettles(c, op);
  }

  lemma WriteSettles(c: Core, op: Op)
    requires CoreOk(c) && op.Write? && op.id in c.engine.streams
    ensures Settled(c, Accepting(c, op))
  {
    assert Had(StreamsOf(c), op.id);
    OneStreamKeeps(c, op.id, Accepting(c, op).engine.streams[op.id]);
  }

  lemma WriteAccepts(c: Core, op: Op, a: Answer, e: Effect)
    requires op.Write?
    ensures var (c', st) := WriteStream(c, op.id, op.data, op.fin, a, e);
      if st == OK then Usable(c) && op.id in c.engine.streams && c' == Apply(Accepting(c, op), e)
      else c' == c.(lastError := c'.lastError)
  {}

  lemma WriteOutcome(c: Core, op: Op, a: Answer, e: Effect)
    requires op.Write?
    ensures var (c', r) := Attempt(c, op, a, e);
      if r.Value? then r == Value(Done) && Usable(c) && op.id in c.engine.streams && c' == Apply(Accepting(c, op), e)
      else c' == c.(lastError := c'.lastError)
  {
    WriteAccepts(c, op, a, e);
    assert Attempt(c, op, a, e) == PyWrite(c, op.id, op.data, op.fin, a, e);
  }

  lemma WriteMoves(c: Core, op: Op, a: Answer, e: Effect)
    requires CoreOk(c) && op.Write? && AttemptOk(c, op, a, e)
    ensures var (c', r) := Attempt(c, op, a, e); Moved(c, c', op, r)
  {
    var (c', r) := Attempt(c, op, a, e);
    AttemptRaises(c, op, a, e);
    WriteOutcome(c, op, a, e);
    if r.Value? {
      WriteStep(c, op);
      ThenApply(c, Accepting(c, op), op, r, e);
    } else {
      NothingMoves(c, c', op, r);
    }
  }

  lemma OpenStep(c: Core, op: Op, id: StreamId)
    requires CoreOk(c) && c.engine.session && op.Open? && id !in c.engine.issued
    ensures Moved(c, Clear(c).(engine := c.engine.(streams := c.engine.streams[id := NEW_STREAM],
                                                   issued := c.engine.issued + {id})), op, Value(Opened(id)))
  {
    var s := StreamsOf(c);
    var c' := Clear(c).(engine := c.engine.(streams := c.engine.streams[id := NEW_STREAM],
                                            issued := c.engine.issued + {id}));
    assert id in c.engine.streams ==> Had(s, id);
    PutKeeps(s, id, NEW_STREAM, c.engine.issued);
    PutCarries(s, id, NEW_STREAM, c.engine.issued);
    assert StreamsOf(c') == Put(s, id, NEW_STREAM) && CoreOk(c');
    CarriedMoves(s, StreamsOf(c'), c.engine.issued, op, Value(Opened(id)));
  }

  lemma CarriedMoves(s: Streams, s': Streams, issued: set<StreamId>, op: Op, r: Py<Val>)
    requires StreamsCarried(s, s', issued) && !op.Read? && !op.Write?
    ensures DataMoved(s, s', issued, op, r)
  {
    forall id | Had(s', id)
      ensures Last(s', id).sent == SentOn(s, id) + Written(op, r, id)
      ensures Last(s', id).delivered == DeliveredOn(s, id) + Delivered(op, r, id)
    {
      assert Last(s', id).sent + [] == Last(s', id).sent && Last(s', id).delivered + [] == Last(s', id).delivered;
    }
  }

  lemma AcceptStep(c: Core, op: Op, id: StreamId)
    requires CoreOk(c) && op.Accept? && id in Waiting(c, op.unidirectional)
    ensures Moved(c, Clear(c).(engine := c.engine.(incoming := c.engine.incoming - {id})), op, Value(Opened(id)))
  {}

  lemma OpenMoves(c: Core, op: Op, a: Answer, e: Effect)
    requires CoreOk(c) && (op.Open? || op.Accept?) && AttemptOk(c, op, a, e)
    ensures var (c', r) := Attempt(c, op, a, e); Moved(c, c', op, r)
  {
    var (c', r) := Attempt(c, op, a, e);
    AttemptRaises(c, op, a, e);
    if !r.Value? {
      NothingMoves(c, c', op, r);
    } else if op.Accept? {
      AcceptStep(c, op, a.stream.value);
    } else {
      var id := a.stream.value;
      OpenStep(c, op, id);
      ThenApply(c, Clear(c).(engine := c.engine.(streams := c.engine.streams[id := NEW_STREAM],
                                                 issued := c.engine.issued + {id})), op, r, e);
    }
  }

  lemma SendStep(c: Core, op: Op)
    requires CoreOk(c) && op.SendDgram?
    ensures Moved(c, Clear(c), op, Value(Done))
  {}

  lemma ReceiveStep(c: Core, op: Op)
    requires CoreOk(c) && op.ReceiveDgram? && c.visitor.datagrams != [] && Watching(c)
    ensures var head := c.visitor.datagrams[0];
      Moved(c, TakeDatagram(Clear(c)).(past := c.past.(taken := c.past.taken + [head])), op, Value(Datagram(head)))
  {
    assert c.visitor.datagrams == [c.visitor.datagrams[0]] + c.visitor.datagrams[1..];
    assert c.engine.session;
  }

  lemma DatagramSent(c: Core, a: Answer, e: Effect)
    ensures var (c', st) := SendDatagram(c, a, e);
      if st == OK then Usable(c) && c' == Apply(Clear(c), e) else c' == c.(lastError := c'.lastError)
  {}

  lemma SendOutcome(c: Core, op: Op, a: Answer, e: Effect)
    requires op.SendDgram?
    ensures var (c', r) := Attempt(c, op, a, e);
      if r.Value? then r == Value(Done) && Usable(c) && c' == Apply(Clear(c), e)
      else c' == c.(lastError := c'.lastError)
  {
    DatagramSent(c, a, e);
  }

  lemma SendMoves(c: Core, op: Op, a: Answer, e: Effect)
    requires CoreOk(c) && op.SendDgram? && AttemptOk(c, op, a, e)
    ensures var (c', r) := Attempt(c, op, a, e); Moved(c, c', op, r)
  {
    var (c', r) := Attempt(c, op, a, e);
    AttemptRaises(c, op, a, e);
    SendOutcome(c, op, a, e);
    if r.Value? {
      SendStep(c, op);
      ThenApply(c, Clear(c), op, r, e);
    } else {
      NothingMoves(c, c', op, r);
    }
  }

  lemma ReceiveOutcome(c: Core)
    ensures var (c', r) := PyReceiveDatagram(c);
      if r.Value?
      then c.visitor.datagrams != [] && (c.kind.Wt? ==> Usable(c)) && r == Value(Datagram(c.visitor.datagrams[0]))
           && c' == TakeDatagram(Clear(c)).(past := c.past.(taken := c.past.taken + [c.visitor.datagrams[0]]))
      else c' == c.(lastError := c'.lastError)
  {
    var (c1, st, size) := PeekDatagramSize(c);
    Peeked(c);
    if st == OK { ReceiveFits(c1); }
  }

  lemma Peeked(c: Core)
    ensures var (c', st, size) := PeekDatagramSize(c);
      && c' == c.(lastError := c'.lastError)
      && (st == OK ==> c.visitor.datagrams != [] && (c.kind.Wt? ==> Usable(c)) && size == |c.visitor.datagrams[0]|)
  {}

  lemma ReceiveFits(c: Core)
    requires c.visitor.datagrams != [] && (c.kind.Wt? ==> Usable(c))
    ensures var head := c.visitor.datagrams[0];
      ReceiveDatagram(c, |head|)
        == (TakeDatagram(Clear(c)).(past := c.past.(taken := c.past.taken + [head])), OK, head)
  {}

  lemma ReceiveMoves(c: Core, op: Op, a: Answer, e: Effect)
    requires CoreOk(c) && op.ReceiveDgram? && AttemptOk(c, op, a, e)
    ensures var (c', r) := Attempt(c, op, a, e); Moved(c, c', op, r)
  {
    var (c', r) := Attempt(c, op, a, e);
    AttemptRaises(c, op, a, e);
    assert Attempt(c, op, a, e) == PyReceiveDatagram(c);
    ReceiveOutcome(c);
    if r.Value? { ReceiveStep(c, op); } else { NothingMoves(c, c', op, r); }
  }

  lemma DatagramMoves(c: Core, op: Op, a: Answer, e: Effect)
    requires CoreOk(c) && (op.SendDgram? || op.ReceiveDgram?) && AttemptOk(c, op, a, e)
    ensures var (c', r) := Attempt(c, op, a, e); Moved(c, c', op, r)
  {
    if op.SendDgram? { SendMoves(c, op, a, e); } else { ReceiveMoves(c, op, a, e); }
  }

  lemma TakeStep(c: Core, op: Op)
    requires CoreOk(c) && op.Take? && op.id in c.responses
    ensures Moved(c, Clear(c).(responses := c.responses - {op.id},
                               past := c.past.(collected := c.past.collected + {op.id})),
                  op, Value(Reply(c.responses[op.id])))
  {
    assert (c.responses - {op.id}).Keys == c.responses.Keys - {op.id};
  }

  lemma SubmitStep(c: Core, op: Op, request: Request)
    requires CoreOk(c) && op.Submit? && c.kind.H3? && c.engine.session && request.id !in c.engine.issued
    requires BuildBlock(op.headers).Some?
    requires request == Request(request.id, BuildBlock(op.headers).value, op.body, op.fin)
    ensures Moved(c, Issue(Clear(c), request.id).(past := c.past.(requests := c.past.requests + [request])),
                  op, Value(Issued(request.id)))
  {}

  /** A rejected header list still uses up the stream it was meant for. */
  lemma IssueStep(c: Core, op: Op, id: StreamId, message: string, exc: Exc, text: string)
    requires CoreOk(c) && (op.Submit? || op.OpenSession?) && ShapeOk(op, Raise(exc, text))
    ensures Moved(c, SetError(Issue(Clear(c), id), message), op, Raise(exc, text))
  {}

  lemma RequestMoves(c: Core, op: Op, a: Answer, e: Effect)
    requires CoreOk(c) && (op.Submit? || op.Take?) && AttemptOk(c, op, a, e)
    ensures var (c', r) := Attempt(c, op, a, e); Moved(c, c', op, r)
  {
    var (c', r) := Attempt(c, op, a, e);
    AttemptRaises(c, op, a, e);
    if op.Take? {
      if r.Value? { TakeStep(c, op); } else { NothingMoves(c, c', op, r); }
    } else if r.Value? {
      var request := Request(a.stream.value, BuildBlock(op.headers).value, op.body, op.fin);
      SubmitStep(c, op, request);
      ThenApply(c, Issue(Clear(c), request.id).(past := c.past.(requests := c.past.requests + [request])), op, r, e);
    } else if c'.engine.issued != c.engine.issued {
      IssueStep(c, op, a.stream.value, c'.lastError, r.exc, r.message);
    } else {
      assert a.stream.Some? ==> c.engine.connected ==> r.Raise?;
      NothingMoves(c, c', op, r);
    }
  }

  lemma ConnectStep(c: Core, op: Op, request: Request, r: Py<Val>)
    requires CoreOk(c) && c.engine.session && op.OpenSession?
    requires (r.Value? ==> r == Value(Done)) && !r.NoneYet? && ShapeOk(op, r)
    ensures Moved(c, Issue(Clear(c), request.id).(past := c.past.(requests := c.past.requests + [request])), op, r)
  {}

  lemma AssociateStep(c: Core, c2: Core, op: Op)
    requires CoreOk(c) && op.OpenSession? && Moved(c, c2, op, Value(Done))
    requires c2.kind.Wt? && c2.engine.session && !c2.hasVisitor && c2.past.requests != []
    ensures Moved(c, c2.(hasTransport := true, hasVisitor := true, visitor := NEW_VISITOR, connectRequested := true,
                         past := c2.past.(arrived := [], taken := [])), op, Value(Done))
  {}

  lemma RejectStep(c: Core, c2: Core, op: Op, exc: Exc, text: string, message: string)
    requires CoreOk(c) && op.OpenSession? && Moved(c, c2, op, Raise(exc, text)) && !c2.hasTransport
    ensures Moved(c, SetError(c2.(hasTransport := false), message), op, Raise(exc, text))
  {}

  lemma AgainStep(c: Core, op: Op)
    requires CoreOk(c) && op.OpenSession?
    ensures Moved(c, Clear(c), op, Value(Done))
  {}

  /** The object once the CONNECT has been sent, before the session is associated. */
  function Sent(c: Core, op: Op, id: StreamId, block: map<string, string>, e: Effect): Core
    requires op.OpenSession?
  {
    Send(Issue(Clear(c), id), Request(id, ConnectBlock(block, c.serverName, op.path), [], false), e)
  }

  function Associated(c2: Core): Core
  {
    c2.(hasTransport := true, hasVisitor := true, visitor := NEW_VISITOR, connectRequested := true,
        past := c2.past.(arrived := [], taken := []))
  }

  /** An attempt to open a session that gets no request stream. */
  predicate Refuses(c: Core, op: Op, a: Answer)
    requires op.OpenSession?
  {
    !HeadersFit(op.headers) || op.path == ""
    || (!c.connectRequested
        && (!c.engine.connected || !c.engine.session || !a.settings || !a.supported || a.stream.None?))
  }

  lemma SessionRefused(c: Core, op: Op, a: Answer, e: Effect)
    requires op.OpenSession? && (c.connectRequested <==> c.hasTransport) && Refuses(c, op, a)
    ensures var (c', r) := Attempt(c, op, a, e);
      c' == c.(lastError := c'.lastError) && !r.Value? && (c.connectRequested ==> !r.NoneYet?)
  {}

  lemma SessionRequested(c: Core, op: Op, a: Answer, e: Effect)
    requires op.OpenSession? && (c.connectRequested <==> c.hasTransport) && !Refuses(c, op, a)
    ensures var (c', r) := Attempt(c, op, a, e);
      if c.connectRequested then c' == Clear(c) && r == Value(Done)
      else if BuildBlock(op.headers).None?
      then c' == SetError(Issue(Clear(c), a.stream.value), c'.lastError) && r.Raise?
      else
        var c2 := Sent(c, op, a.stream.value, BuildBlock(op.headers).value, e);
        if a.associated then c' == Associated(c2) && r == Value(Done)
        else c' == SetError(c2.(hasTransport := false), c'.lastError) && r.Raise?
  {}

  lemma SentMoves(c: Core, op: Op, id: StreamId, block: map<string, string>, e: Effect, r: Py<Val>)
    requires CoreOk(c) && op.OpenSession? && AppEffectOk(c, e) && c.kind.Wt? && c.engine.connected && !c.hasVisitor
    requires (r.Value? ==> r == Value(Done)) && !r.NoneYet? && ShapeOk(op, r)
    ensures var c2 := Sent(c, op, id, block, e);
      && Moved(c, c2, op, r) && c2.kind.Wt? && c2.engine.session && !c2.hasVisitor && !c2.hasTransport
      && c2.past.requests == c.past.requests + [Request(id, ConnectBlock(block, c.serverName, op.path), [], false)]
  {
    var request := Request(id, ConnectBlock(block, c.serverName, op.path), [], false);
    ConnectStep(c, op, request, r);
    ThenApply(c, Issue(Clear(c), id).(past := c.past.(requests := c.past.requests + [request])), op, r, e);
  }

  /** The pseudo-headers of an extended CONNECT (section 4 of RFC 8441), whatever the caller's headers were. */
  predicate IsConnect(r: Request, serverName: string, path: string)
  {
    && ":method" in r.block && r.block[":method"] == "CONNECT"
    && ":protocol" in r.block && r.block[":protocol"] == "webtransport"
    && ":scheme" in r.block && r.block[":scheme"] == "https"
    && ":authority" in r.block && r.block[":authority"] == serverName
    && ":path" in r.block && r.block[":path"] == path
    && r.body == [] && !r.fin
  }

  lemma ConnectBlockIsConnect(id: StreamId, block: map<string, string>, serverName: string, path: string)
    ensures IsConnect(Request(id, ConnectBlock(block, serverName, path), [], false), serverName, path)
  {
    assert ":method"[1] == 'm' && ":protocol"[2] == 'r' && ":scheme"[1] == 's';
    assert ":authority"[1] == 'a' && ":path"[2] == 'a';
  }

  /** CONNECT is sent at most once: WOULD_BLOCK comes only before a request stream exists, and once
      the session is associated later calls send nothing. */
  lemma ConnectOnce(c: Core, op: Op, a: Answer, e: Effect)
    requires CoreOk(c) && op.OpenSession? && AttemptOk(c, op, a, e)
    ensures var (c', r) := Attempt(c, op, a, e);
      && (r.Value? ==> c'.connectRequested)
      && (c.connectRequested ==> c'.past.requests == c.past.requests && c'.connectRequested && !r.NoneYet?)
      && (!c.connectRequested && r.Value? ==> |c'.past.requests| == |c.past.requests| + 1)
      && (r.NoneYet? ==> c'.past.requests == c.past.requests && c'.engine.issued == c.engine.issued)
      && (c'.past.requests == c.past.requests
          || (exists r :: c'.past.requests == c.past.requests + [r] && IsConnect(r, c.serverName, op.path)))
  {
    if Refuses(c, op, a) {
      SessionRefused(c, op, a, e);
    } else {
      SessionRequested(c, op, a, e);
    }
    if !c.connectRequested && c.engine.connected && a.stream.Some? && BuildBlock(op.headers).Some? {
      SentMoves(c, op, a.stream.value, BuildBlock(op.headers).value, e, Raise(RuntimeError, ""));
      ConnectBlockIsConnect(a.stream.value, BuildBlock(op.headers).value, c.serverName, op.path);
    }
  }

  lemma SessionMoves(c: Core, op: Op, a: Answer, e: Effect)
    requires CoreOk(c) && op.OpenSession? && AttemptOk(c, op, a, e)
    ensures var (c', r) := Attempt(c, op, a, e); Moved(c, c', op, r)
  {
    var (c', r) := Attempt(c, op, a, e);
    AttemptRaises(c, op, a, e);
    if Refuses(c, op, a) {
      SessionRefused(c, op, a, e);
      NothingMoves(c, c', op, r);
    } else {
      SessionGranted(c, op, a, e);
    }
  }

  lemma SessionGranted(c: Core, op: Op, a: Answer, e: Effect)
    requires CoreOk(c) && op.OpenSession? && AttemptOk(c, op, a, e) && !Refuses(c, op, a)
    ensures var (c', r) := Attempt(c, op, a, e); Moved(c, c', op, r)
  {
    var (c', r) := Attempt(c, op, a, e);
    AttemptRaises(c, op, a, e);
    SessionRequested(c, op, a, e);
    if c.connectRequested {
      AgainStep(c, op);
    } else if BuildBlock(op.headers).None? {
      IssueStep(c, op, a.stream.value, c'.lastError, r.exc, r.message);
    } else {
      var block := BuildBlock(op.headers).value;
      SentMoves(c, op, a.stream.value, block, e, r);
      if a.associated {
        AssociateStep(c, Sent(c, op, a.stream.value, block, e), op);
      } else {
        RejectStep(c, Sent(c, op, a.stream.value, block, e), op, r.exc, r.message, c'.lastError);
      }
    }
  }

  /** reset and stop_sending move no data either. */
  lemma SignalKeeps(c: Core, id: StreamId, e: Effect)
    requires CoreOk(c) && AppEffectOk(c, e)
    ensures var (c', st) := SignalStream(c, id, e);
      && CoreOk(c') && Calmer(c, c') && IsConnected(c') == IsConnected(c) && Carried(c, c') && SameHistory(c, c')
      && c'.past.popped == c.past.popped && c'.past.completed == c.past.completed
  {
    var (c', st) := SignalStream(c, id, e);
    ErrorTextIsFree(c, Clear(c));
    if st == OK {
      ApplyAppKeeps(Clear(c), e);
    } else {
      ErrorTextIsFree(c, c');
    }
  }

  lemma AttemptMoves(c: Core, op: Op, a: Answer, e: Effect)
    requires CoreOk(c) && AttemptOk(c, op, a, e)
    ensures var (c', r) := Attempt(c, op, a, e); Moved(c, c', op, r)
  {
    match op
    case AwaitConnected =>
    case AwaitSession =>
    case Read(_, _) => ReadMoves(c, op, a, e);
    case Write(_, _, _) => WriteMoves(c, op, a, e);
    case Open(_) => OpenMoves(c, op, a, e);
    case Accept(_) => OpenMoves(c, op, a, e);
    case SendDgram(_) => DatagramMoves(c, op, a, e);
    case ReceiveDgram => DatagramMoves(c, op, a, e);
    case Submit(_, _, _) => RequestMoves(c, op, a, e);
    case Take(_) => RequestMoves(c, op, a, e);
    case OpenSession(_, _) => SessionMoves(c, op, a, e);
  }
}
