/** The Python-facing layer: statuses become results, None or exceptions, and
    each awaitable operation becomes one non-blocking attempt. */
module Binding {
  import opened Prelude
  import opened Engine
  import opened Glue

  const SEND_BUFFER_SIZE: nat := 65535
  const MAX_INPUT_BYTES: nat := 16 * 1024 * 1024

  datatype Py<+T> = Value(value: T) | NoneYet | Raise(exc: Exc, message: string)

  /** ThrowStatus: the recorded error text is appended to the context. */
  function ThrowStatus<T>(context: string, detail: string, st: Status): (r: Py<T>)
    ensures r.Raise? && r.exc != TimeoutError && r.exc != CancelledError
  {
    var message := if detail == "" then context else context + ": " + detail;
    match st
    case INVALID_ARGUMENT => Raise(ValueError, message)
    case TOO_BIG => Raise(ValueError, message)
    case NOT_FOUND => Raise(KeyError, message)
    case CLOSED => Raise(ConnectionError, message)
    case ERROR => Raise(RuntimeError, message)
    case _ => Raise(RuntimeError, message)
  }

  function Throw<T>(context: string, c: Core, st: Status): (r: Py<T>)
    ensures r.Raise? && r.exc != TimeoutError && r.exc != CancelledError
  {
    ThrowStatus(context, c.lastError, st)
  }

  /** The usual translation: WOULD_BLOCK is None, anything else but OK raises. */
  function Translate<T>(context: string, c: Core, st: Status, value: T): (r: Py<T>)
    ensures r.Raise? ==> r.exc != TimeoutError && r.exc != CancelledError
  {
    match st
    case OK => Value(value)
    case WOULD_BLOCK => NoneYet
    case _ => Throw(context, c, st)
  }

  /** start(): no status but OK is accepted. */
  function PyStart(c: Core, initialized: bool, attempting: bool, e: Effect): (Core, Py<()>)
  {
    var (c', st) := Start(c, initialized, attempting, e);
    (c', if st == OK then Value(()) else Throw("failed to start the " + Name(c.kind) + " handshake", c', st))
  }

  /** receive_packet(): CLOSED is swallowed, to be observed through is_connected(). */
  function PyReceivePacket(c: Core, data: Bytes, e: Effect): (Core, Py<()>)
  {
    if |data| > MAX_INPUT_BYTES then (c, Raise(ValueError, "input bytes exceed the maximum allowed size"))
    else
      var (c', st) := ReceivePacket(c, data, e);
      (c', if st == OK || st == CLOSED then Value(()) else Throw("failed to process an incoming packet", c', st))
  }

  function PyHandleTimeout(c: Core, e: Effect): (Core, Py<()>)
  {
    var (c', st) := HandleTimeout(c, e);
    (c', if st == OK || st == CLOSED then Value(()) else Throw("failed to handle a timeout", c', st))
  }

  function PyNextSend(c: Core): (Core, Py<Bytes>)
  {
    var (c', st, packet) := NextSend(c, SEND_BUFFER_SIZE);
    (c', Translate("failed to fetch an outgoing packet", c', st, packet))
  }

  /** The message of the TimeoutError that `_wait` raises. */
  function TimeoutText(kind: Kind): string
  {
    "timed out waiting for " + (if kind.H3? then "an " else "a ") + Name(kind) + " event"
  }

  // ----- attempts

  datatype Op =
    | AwaitConnected
    | Read(id: StreamId, maxBytes: nat)
    | Write(id: StreamId, data: Bytes, fin: bool)
    | Open(unidirectional: bool)
    | Accept(unidirectional: bool)
    | SendDgram(data: Bytes)
    | ReceiveDgram
    | Submit(headers: seq<Header>, body: Bytes, fin: bool)
    | Take(id: StreamId)
    | OpenSession(path: string, headers: seq<Header>)
    | AwaitSession

  datatype Val =
    | Done
    | Chunk(data: Bytes, fin: bool)
    | Opened(id: StreamId)
    | Datagram(data: Bytes)
    | Issued(id: StreamId)
    | Reply(response: Response)

  predicate HeadersFit(headers: seq<Header>)
  {
    forall i :: 0 <= i < |headers| ==> |headers[i].0| <= MAX_INPUT_BYTES && |headers[i].1| <= MAX_INPUT_BYTES
  }

  function TooLarge<T>(): Py<T> { Raise(ValueError, "input bytes exceed the maximum allowed size") }

  /** receive_datagram(): peek the size, then receive into a buffer of that size. */
  function PyReceiveDatagram(c: Core): (Core, Py<Val>)
  {
    var context := "failed to receive datagram";
    var (c1, st1, size) := PeekDatagramSize(c);
    if st1 != OK then (c1, Translate(context, c1, st1, Done))
    else
      var (c2, st2, data) := ReceiveDatagram(c1, size);
      (c2, if st2 == OK then Value(Datagram(data)) else Throw(context, c2, st2))
  }

  function PyRead(c: Core, id: StreamId, maxBytes: nat, region: nat, e: Effect): (Core, Py<Val>)
    requires id in c.engine.streams ==> RegionOk(c.engine.streams[id], region)
  {
    if maxBytes == 0 then (c, Raise(ValueError, "max_bytes must be greater than zero"))
    else if maxBytes > MAX_INPUT_BYTES then (c, Raise(ValueError, "max_bytes exceed the maximum allowed size"))
    else
      var (c', st, data, fin) := ReadStream(c, id, maxBytes, region, e);
      (c', Translate("failed to read from a " + Name(c.kind) + " stream", c', st, Chunk(data, fin)))
  }

  function PyWrite(c: Core, id: StreamId, data: Bytes, fin: bool, a: Answer, e: Effect): (Core, Py<Val>)
  {
    if |data| > MAX_INPUT_BYTES then (c, TooLarge())
    else
      var (c', st) := WriteStream(c, id, data, fin, a, e);
      (c', Translate("failed to write to a " + Name(c.kind) + " stream", c', st, Done))
  }

  /** One call of the `attempt` closure of an awaitable operation. */
  function Attempt(c: Core, op: Op, a: Answer, e: Effect): (Core, Py<Val>)
    requires op.Read? && op.id in c.engine.streams ==> RegionOk(c.engine.streams[op.id], a.region)
  {
    match op
    case AwaitConnected => (c, if IsConnected(c) then Value(Done) else NoneYet)
    case AwaitSession => (c, if IsSessionReady(c) then Value(Done) else NoneYet)
    case Read(id, maxBytes) => PyRead(c, id, maxBytes, a.region, e)
    case Write(id, data, fin) => PyWrite(c, id, data, fin, a, e)
    case Open(_) =>
      var (c', st, id) := OpenStream(c, a, e);
      (c', Translate("failed to open a " + Name(c.kind) + " stream", c', st, Opened(id)))
    case Accept(_) =>
      var (c', st, id) := AcceptStream(c, a);
      (c', Translate("failed to accept a " + Name(c.kind) + " stream", c', st, Opened(id)))
    case SendDgram(data) =>
      if |data| > MAX_INPUT_BYTES then (c, TooLarge())
      else
        var (c', st) := SendDatagram(c, a, e);
        (c', Translate("failed to send datagram", c', st, Done))
    case ReceiveDgram => PyReceiveDatagram(c)
    case Submit(headers, body, fin) =>
      if !HeadersFit(headers) || |body| > MAX_INPUT_BYTES then (c, TooLarge())
      else
        var (c', st, id) := SubmitRequest(c, headers, body, fin, a, e);
        (c', Translate("failed to submit an HTTP/3 request", c', st, Issued(id)))
    case Take(id) =>
      var (c', st, response) := TakeResponse(c, id);
      (c', if response.Some? then Value(Reply(response.value)) else NoneYet)
    case OpenSession(path, headers) =>
      if !HeadersFit(headers) then (c, TooLarge())
      else
        var (c', st) := ConnectSession(c, path, headers, a, e);
        (c', Translate("failed to open a WebTransport session", c', st, Done))
  }
}
