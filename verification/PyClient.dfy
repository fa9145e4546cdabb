/** The bindings as the source writes them: each method calls the glue object,
    with a buffer of its own where bytes come back, and turns the status into a
    result, None or an exception. Proved against the functions of `Binding`. */
module PyObject {
  import opened Prelude
  import opened Engine
  import opened Glue
  import opened Binding
  import opened GlueObject

  /** ThrowIfNotOk, with WOULD_BLOCK as None. */
  function Result<T>(glue: GlueClient, context: string, st: Status, value: T): (r: Py<T>)
    reads glue
    ensures r == Translate(context, glue.State(), st, value)
  {
    match st
    case OK => Value(value)
    case WOULD_BLOCK => NoneYet
    case _ => ThrowStatus(context, glue.lastError, st)
  }

  method StartCore(glue: GlueClient, initialized: bool, attempting: bool, e: Effect) returns (r: Py<()>)
    modifies glue
    ensures (glue.State(), r) == PyStart(old(glue.State()), initialized, attempting, e)
  {
    var st := glue.Start(initialized, attempting, e);
    if st != OK { return ThrowStatus("failed to start the " + Name(glue.kind) + " handshake", glue.lastError, st); }
    return Value(());
  }

  method ReceivePacket(glue: GlueClient, data: Bytes, e: Effect) returns (r: Py<()>)
    modifies glue
    ensures (glue.State(), r) == PyReceivePacket(old(glue.State()), data, e)
  {
    if |data| > MAX_INPUT_BYTES { return TooLarge(); }
    var st := glue.ReceivePacket(data, e);
    if st == CLOSED { return Value(()); }
    if st != OK { return ThrowStatus("failed to process an incoming packet", glue.lastError, st); }
    return Value(());
  }

  method HandleTimeout(glue: GlueClient, e: Effect) returns (r: Py<()>)
    modifies glue
    ensures (glue.State(), r) == PyHandleTimeout(old(glue.State()), e)
  {
    var st := glue.HandleTimeout(e);
    if st == CLOSED { return Value(()); }
    if st != OK { return ThrowStatus("failed to handle a timeout", glue.lastError, st); }
    return Value(());
  }

  method NextSend(glue: GlueClient) returns (r: Py<Bytes>)
    modifies glue
    ensures (glue.State(), r) == PyNextSend(old(glue.State()))
  {
    var buffer := new bv8[SEND_BUFFER_SIZE];
    var st, written := glue.NextSend(buffer);
    if st == WOULD_BLOCK { return NoneYet; }
    if st != OK { return ThrowStatus("failed to fetch an outgoing packet", glue.lastError, st); }
    return Value(buffer[..written]);
  }

  method NextTimeout(glue: GlueClient, now: int) returns (timeout: Option<nat>)
    requires TimesOk(glue.engine.alarms) && 0 <= now <= TIME_LIMIT
    modifies glue`lastError
    ensures (glue.State(), timeout) == Glue.NextTimeoutMs(old(glue.State()), now)
  {
    var timeoutMs, hasTimeout := glue.NextTimeoutMs(now);
    if !hasTimeout { return None; }
    return Some(timeoutMs as nat);
  }

  method ReadStream(glue: GlueClient, id: StreamId, maxBytes: nat, region: nat, e: Effect) returns (r: Py<Val>)
    requires id in glue.engine.streams ==> RegionOk(glue.engine.streams[id], region)
    modifies glue
    ensures (glue.State(), r) == PyRead(old(glue.State()), id, maxBytes, region, e)
  {
    if maxBytes == 0 { return Raise(ValueError, "max_bytes must be greater than zero"); }
    if maxBytes > MAX_INPUT_BYTES { return Raise(ValueError, "max_bytes exceed the maximum allowed size"); }
    var buffer := new bv8[maxBytes];
    var st, bytesRead, fin := glue.ReadStream(id, buffer, region, e);
    return Result(glue, "failed to read from a " + Name(glue.kind) + " stream", st, Chunk(buffer[..bytesRead], fin));
  }

  method WriteStream(glue: GlueClient, id: StreamId, data: Bytes, fin: bool, a: Answer, e: Effect) returns (r: Py<Val>)
    modifies glue
    ensures (glue.State(), r) == PyWrite(old(glue.State()), id, data, fin, a, e)
  {
    if |data| > MAX_INPUT_BYTES { return TooLarge(); }
    var st := glue.WriteStream(id, data, fin, a, e);
    return Result(glue, "failed to write to a " + Name(glue.kind) + " stream", st, Done);
  }

  /** Peek the size, allocate that much, receive. */
  method ReceiveDatagram(glue: GlueClient) returns (r: Py<Val>)
    modifies glue
    ensures (glue.State(), r) == PyReceiveDatagram(old(glue.State()))
  {
    var st, size := glue.PeekDatagramSize();
    if st != OK { return Result(glue, "failed to receive datagram", st, Done); }
    var buffer := new bv8[size];
    var bytesRead;
    st, bytesRead := glue.ReceiveDatagram(buffer);
    if st != OK { return ThrowStatus("failed to receive datagram", glue.lastError, st); }
    return Value(Datagram(buffer[..bytesRead]));
  }

  /** Copies the header pairs out of the Python list; false when one is too long. */
  method OwnHeaders(headers: seq<Header>) returns (ok: bool, owned: seq<Header>)
    ensures ok <==> HeadersFit(headers)
    ensures ok ==> owned == headers
  {
    owned := [];
    for i := 0 to |headers|
      invariant owned == headers[..i]
      invariant forall k :: 0 <= k < i ==> |headers[k].0| <= MAX_INPUT_BYTES && |headers[k].1| <= MAX_INPUT_BYTES
    {
      var (name, value) := headers[i];
      if |name| > MAX_INPUT_BYTES || |value| > MAX_INPUT_BYTES { return false, owned; }
      owned := owned + [(name, value)];
    }
    return true, owned;
  }

  method SubmitRequest(glue: GlueClient, op: Op, a: Answer, e: Effect) returns (r: Py<Val>)
    requires op.Submit?
    modifies glue
    ensures (glue.State(), r) == Attempt(old(glue.State()), op, a, e)
  {
    var ok, owned := OwnHeaders(op.headers);
    if !ok || |op.body| > MAX_INPUT_BYTES { return TooLarge(); }
    var st, id := glue.SubmitRequest(owned, op.body, op.fin, a, e);
    return Result(glue, "failed to submit an HTTP/3 request", st, Issued(id));
  }

  method ConnectSession(glue: GlueClient, op: Op, a: Answer, e: Effect) returns (r: Py<Val>)
    requires op.OpenSession?
    modifies glue
    ensures (glue.State(), r) == Attempt(old(glue.State()), op, a, e)
  {
    var ok, owned := OwnHeaders(op.headers);
    if !ok { return TooLarge(); }
    var st := glue.ConnectSession(op.path, owned, a, e);
    return Result(glue, "failed to open a WebTransport session", st, Done);
  }

  method DatagramOrStream(glue: GlueClient, op: Op, a: Answer, e: Effect) returns (r: Py<Val>)
    requires op.Open? || op.Accept? || op.SendDgram? || op.ReceiveDgram?
    modifies glue
    ensures (glue.State(), r) == Attempt(old(glue.State()), op, a, e)
  {
    var st, id;
    match op
    case Open(_) =>
      st, id := glue.OpenStream(a, e);
      return Result(glue, "failed to open a " + Name(glue.kind) + " stream", st, Opened(id));
    case Accept(_) =>
      st, id := glue.AcceptStream(a);
      return Result(glue, "failed to accept a " + Name(glue.kind) + " stream", st, Opened(id));
    case SendDgram(data) =>
      if |data| > MAX_INPUT_BYTES { return TooLarge(); }
      st := glue.SendDatagram(a, e);
      return Result(glue, "failed to send datagram", st, Done);
    case ReceiveDgram =>
      r := ReceiveDatagram(glue);
  }

  /** One call of the `attempt` closure of an awaitable operation. */
  method Try(glue: GlueClient, op: Op, a: Answer, e: Effect) returns (r: Py<Val>)
    requires op.Read? && op.id in glue.engine.streams ==> RegionOk(glue.engine.streams[op.id], a.region)
    modifies glue
    ensures (glue.State(), r) == Attempt(old(glue.State()), op, a, e)
  {
    match op
    case AwaitConnected => return if glue.IsConnected() then Value(Done) else NoneYet;
    case AwaitSession => return if glue.IsSessionReady() then Value(Done) else NoneYet;
    case Read(id, maxBytes) => r := ReadStream(glue, id, maxBytes, a.region, e);
    case Write(id, data, fin) => r := WriteStream(glue, id, data, fin, a, e);
    case Submit(_, _, _) => r := SubmitRequest(glue, op, a, e);
    case OpenSession(_, _) => r := ConnectSession(glue, op, a, e);
    case Take(id) =>
      var st, response := glue.TakeResponse(id);
      return if response.Some? then Value(Reply(response.value)) else NoneYet;
    case _ => r := DatagramOrStream(glue, op, a, e);
  }
}
