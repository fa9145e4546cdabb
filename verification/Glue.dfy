/** The sans-I/O glue objects (`quiche_py_client`, `quiche_py_http3_client`,
    `quiche_py_wt_client`) as values, and every operation as a function from the
    object before the call to the object after it and the status returned.

    The three objects are near copies; `kind` selects the branches in which they
    differ. `GlueClient` is the imperative form, proved against these functions. */
module Glue {
  import opened Prelude
  import opened Engine

  datatype Kind = Raw | H3 | Wt

  datatype Status = OK | WOULD_BLOCK | NOT_FOUND | CLOSED | TOO_BIG | INVALID_ARGUMENT | ERROR

  /** The session visitor: flags set by callbacks and the inbound datagram FIFO. */
  datatype Visitor = Visitor(ready: bool, closed: bool, code: nat, message: string, datagrams: seq<Bytes>)

  const NEW_VISITOR := Visitor(false, false, 0, "", [])

  /** What the glue can observe of the library object it owns. */
  datatype EngineView = EngineView(
    session: bool, connected: bool, alarms: set<int>, streams: map<StreamId, Stream>, issued: set<StreamId>,
    incoming: set<StreamId>)     // opened by the peer and not accepted yet

  datatype Request = Request(id: StreamId, block: map<string, string>, body: Bytes, fin: bool)

  /** Histories; no operation reads them.
      written, popped     packets the writer was handed / NextSend returned
      arrived, taken      datagrams since the visitor was new / returned by ReceiveDatagram
      requests            requests sent (since the last handshake start for WebTransport)
      completed           what each completed response consisted of;  collected: those taken
      gone                streams that the library dropped, as they were then */
  datatype Past = Past(
    written: seq<Bytes>, popped: seq<Bytes>, arrived: seq<Bytes>, taken: seq<Bytes>,
    requests: seq<Request>, completed: map<StreamId, Completion>, collected: set<StreamId>,
    gone: map<StreamId, Stream>)

  datatype Completion = Completion(headers: seq<Header>, body: Bytes)

  datatype Core = Core(
    kind: Kind,
    engine: EngineView,
    lastError: string,
    queue: seq<Bytes>,
    visitor: Visitor,
    connectRequested: bool,
    hasTransport: bool,
    hasVisitor: bool,
    responses: map<StreamId, Response>,
    serverName: string,
    past: Past)

  /** A successfully constructed object. */
  function NewCore(kind: Kind, serverName: string): Core
  {
    Core(kind, EngineView(false, false, {}, map[], {}, {}), "", [], NEW_VISITOR, false, false, false, map[],
         serverName, NEW_PAST)
  }

  const NEW_PAST := Past([], [], [], [], [], map[], {}, map[])

  /** The data streams of an object: those the library keeps, and those it dropped, as they were then. */
  datatype Streams = Streams(kept: map<StreamId, Stream>, gone: map<StreamId, Stream>)

  function StreamsOf(c: Core): Streams { Streams(c.engine.streams, c.past.gone) }

  predicate Had(s: Streams, id: StreamId) { id in s.kept || id in s.gone }

  /** A stream as it is, or as it was when it was dropped. */
  function Last(s: Streams, id: StreamId): Stream
    requires Had(s, id)
  {
    if id in s.kept then s.kept[id] else s.gone[id]
  }

  // ----- last_error_ helpers

  function Clear(c: Core): Core { c.(lastError := "") }

  function SetError(c: Core, message: string): Core { c.(lastError := message) }

  function SetErrorIfEmpty(c: Core, message: string): Core
  {
    if c.lastError == "" then c.(lastError := message) else c
  }

  /** Whether a visitor of ours is attached: a member of the raw client, set by CONNECT for WebTransport. */
  predicate Watching(c: Core) { c.kind.Raw? || (c.kind.Wt? && c.hasVisitor) }

  function CloseText(v: Visitor): string
  {
    if v.message != "" then v.message else "session closed (error code " + Decimal(v.code) + ")"
  }

  /** PopulateClosedErrorIfNeeded; the HTTP/3 client has no such step. */
  function PopulateClosed(c: Core): Core
  {
    if c.lastError == "" && Watching(c) && c.visitor.closed then c.(lastError := CloseText(c.visitor)) else c
  }

  // ----- callbacks made by the library during a call

  /** The ":status" of a response, 0 when it is missing or not a number. */
  function StatusOf(headers: seq<Header>): int
  {
    if headers == [] then 0
    else if headers[0].0 != ":status" then StatusOf(headers[1..])
    else if ParseInt(headers[0].1).Some? then ParseInt(headers[0].1).value
    else 0
  }

  /** The response that is stored for a completed stream. */
  function Answering(id: StreamId, done: Completion): Response
  {
    Response(id, StatusOf(done.headers), done.headers, done.body)
  }

  function OnEvent(c: Core, ev: Event): Core
  {
    match ev
    case SessionReady =>
      if Watching(c) then c.(visitor := c.visitor.(ready := true)) else c
    case SessionClosed(code, message) =>
      if Watching(c)
      then c.(visitor := c.visitor.(ready := false, closed := true, code := code, message := message))
      else c
    case DatagramReceived(data) =>
      if Watching(c)
      then c.(visitor := c.visitor.(datagrams := c.visitor.datagrams + [data]),
              past := c.past.(arrived := c.past.arrived + [data]))
      else c
    case StreamData(id, data, fin) =>
      var st := if id in c.engine.streams then c.engine.streams[id] else NEW_STREAM;
      c.(engine := c.engine.(streams := c.engine.streams[id := Arrive(st, data, fin)],
                             issued := c.engine.issued + {id},
                             incoming := if id in c.engine.streams then c.engine.incoming
                                         else c.engine.incoming + {id}))
    case StreamGone(id) =>
      c.(engine := c.engine.(streams := c.engine.streams - {id}, incoming := c.engine.incoming - {id}),
         past := c.past.(gone := if id in c.engine.streams then c.past.gone[id := c.engine.streams[id]]
                                 else c.past.gone))
    case ResponseComplete(id, headers, body) =>
      if c.kind.H3?
      then c.(responses := c.responses[id := Answering(id, Completion(headers, body))],
              past := c.past.(completed := c.past.completed[id := Completion(headers, body)]))
      else c
  }

  function Deliver(c: Core, events: seq<Event>): Core
    decreases |events|
  {
    if events == [] then c else Deliver(OnEvent(c, events[0]), events[1..])
  }

  /** One library call: packets go to the send queue, callbacks run in order. */
  function Apply(c: Core, e: Effect): Core
  {
    Deliver(c.(engine := c.engine.(connected := e.connected, alarms := e.alarms),
               queue := c.queue + e.packets,
               past := c.past.(written := c.past.written + e.packets)), e.events)
  }

  // ----- connection-level operations

  function Name(kind: Kind): string
  {
    match kind case Raw => "QUIC" case H3 => "HTTP/3" case Wt => "WebTransport"
  }

  /** What Start forgets before a new handshake. */
  function ResetSession(c: Core): Core
  {
    match c.kind
    case Raw => c.(visitor := NEW_VISITOR, past := c.past.(arrived := [], taken := []))
    case H3 => c
    case Wt => c.(hasTransport := false, hasVisitor := false, connectRequested := false,
                  past := c.past.(requests := [], arrived := [], taken := []))
  }

  function Start(c: Core, initialized: bool, attempting: bool, e: Effect): (Core, Status)
  {
    var c0 := Clear(c);
    if c0.engine.connected then (c0, OK)
    else
      var c1 := ResetSession(c0);
      if !initialized then (SetError(c1, "failed to initialize the " + Name(c.kind) + " client"), ERROR)
      else
        var c2 := Apply(c1.(engine := c1.engine.(session := true)), e);
        if !(c2.engine.connected || attempting)
        then (SetErrorIfEmpty(PopulateClosed(c2), "failed to start the " + Name(c.kind) + " handshake"), ERROR)
        else (c2, OK)
  }

  function ReceivePacket(c: Core, data: Bytes, e: Effect): (Core, Status)
  {
    var c0 := Clear(c);
    if data == [] then (c0, OK)
    else if !c0.engine.session then (SetError(c0, "handshake has not been started"), ERROR)
    else
      var c1 := Apply(c0, e);
      if !c1.engine.connected
      then (SetErrorIfEmpty(PopulateClosed(c1), "connection closed while processing a packet"), CLOSED)
      else (c1, OK)
  }

  /** NextSend does not clear last_error. */
  function NextSend(c: Core, bufferLen: nat): (Core, Status, Bytes)
  {
    if c.queue == [] then (c, WOULD_BLOCK, [])
    else if bufferLen < |c.queue[0]|
    then (SetError(c, "buffer too small for packet: need " + Decimal(|c.queue[0]|) + " bytes"), TOO_BIG, [])
    else (c.(queue := c.queue[1..], past := c.past.(popped := c.past.popped + [c.queue[0]])), OK, c.queue[0])
  }

  /** Milliseconds until a deadline, clamped at zero and rounded up. */
  function RoundUpMs(alarm: int, now: int): nat
  {
    var remaining := if alarm - now < 0 then 0 else alarm - now;
    (remaining + 999) / 1000
  }

  /** NextTimeoutMs clears last_error. */
  function NextTimeoutMs(c: Core, now: int): (Core, Option<nat>)
  {
    (Clear(c), if c.engine.alarms == {} then None else Some(RoundUpMs(Earliest(c.engine.alarms), now)))
  }

  function HandleTimeout(c: Core, e: Effect): (Core, Status)
  {
    var c1 := Apply(Clear(c), e);
    if !c1.engine.connected
    then (SetErrorIfEmpty(PopulateClosed(c1), "connection closed while handling a timeout"), CLOSED)
    else (c1, OK)
  }

  function Close(c: Core, e: Effect): Core
  {
    if c.kind.Raw? && !c.engine.session then Clear(c) else Apply(Clear(c), e)
  }

  predicate IsConnected(c: Core)
  {
    c.engine.connected && (c.kind.Raw? ==> c.visitor.ready)
  }

  predicate IsSessionReady(c: Core) { c.hasVisitor && c.visitor.ready }

  // ----- streams (raw and WebTransport)

  /** EnsureConnected of the raw client, EnsureSessionReady of the WebTransport client. */
  predicate Usable(c: Core)
  {
    match c.kind
    case Raw => c.engine.connected && c.visitor.ready
    case H3 => false
    case Wt => c.hasTransport && c.hasVisitor && c.visitor.ready
  }

  function Unusable(c: Core): (Core, Status)
  {
    if c.kind.Raw? then (SetErrorIfEmpty(PopulateClosed(c), "connection is not open"), CLOSED)
    else (SetError(c, "WebTransport session is not ready"), ERROR)
  }

  function MissingStream(c: Core, id: StreamId): (Core, Status)
  {
    (SetError(c, "stream " + Decimal(id) + " is not available"), NOT_FOUND)
  }

  function OpenStream(c: Core, a: Answer, e: Effect): (Core, Status, StreamId)
  {
    var c0 := Clear(c);
    if !Usable(c0) then var (c1, st) := Unusable(c0); (c1, st, 0)
    else if a.stream.None? then (c0, WOULD_BLOCK, 0)
    else
      var id := a.stream.value;
      (Apply(c0.(engine := c0.engine.(streams := c0.engine.streams[id := NEW_STREAM],
                                      issued := c0.engine.issued + {id})), e), OK, id)
  }

  function AcceptStream(c: Core, a: Answer): (Core, Status, StreamId)
  {
    var c0 := Clear(c);
    if !Usable(c0) then var (c1, st) := Unusable(c0); (c1, st, 0)
    else if a.stream.None? then (c0, WOULD_BLOCK, 0)
    else (c0.(engine := c0.engine.(incoming := c0.engine.incoming - {a.stream.value})), OK, a.stream.value)
  }

  /** The raw client takes an explicit SkipBytes(0) path at the end of a stream;
      the WebTransport client always reads. */
  function ReadStream(c: Core, id: StreamId, n: nat, region: nat, e: Effect): (Core, Status, Bytes, bool)
    requires id in c.engine.streams ==> RegionOk(c.engine.streams[id], region)
  {
    var c0 := Clear(c);
    if !Usable(c0) then var (c1, st) := Unusable(c0); (c1, st, [], false)
    else if id !in c0.engine.streams then var (c1, st) := MissingStream(c0, id); (c1, st, [], false)
    else ReadOpen(c0, id, n, region, e)
  }

  /** Reading a stream that is there. */
  function ReadOpen(c: Core, id: StreamId, n: nat, region: nat, e: Effect): (Core, Status, Bytes, bool)
    requires id in c.engine.streams && RegionOk(c.engine.streams[id], region)
  {
    var s := c.engine.streams[id];
    var peek := Peek(s, region);
    if !HasData(peek) then (c, WOULD_BLOCK, [], false)
    else if c.kind.Raw? && peek.data == [] && peek.finNext then (Apply(c, e), OK, [], SkipNothing(s))
    else if n == 0
    then (SetError(c, if c.kind.Raw? then "buffer length must be greater than zero"
                      else "buffer_len must be greater than zero"), INVALID_ARGUMENT, [], false)
    else
      var (s1, data, fin) := ReadUpTo(s, n);
      var c1 := Apply(c.(engine := c.engine.(streams := c.engine.streams[id := s1])), e);
      if c.kind.Raw? && data == [] && !fin then (c1, WOULD_BLOCK, [], false) else (c1, OK, data, fin)
  }

  function WriteStream(c: Core, id: StreamId, data: Bytes, fin: bool, a: Answer, e: Effect): (Core, Status)
  {
    var c0 := Clear(c);
    if data == [] && !fin
    then (SetError(c0, if c.kind.Raw? then "writing empty data requires fin=true"
                       else "empty write requires fin=true"), INVALID_ARGUMENT)
    else if !Usable(c0) then Unusable(c0)
    else if id !in c0.engine.streams then MissingStream(c0, id)
    else if !a.canWrite then (c0, WOULD_BLOCK)
    else
      match a.write
      case Unavailable => (c0, WOULD_BLOCK)
      case Refused(message) => (SetError(c0, message), ERROR)
      case Accepted =>
        var s := c0.engine.streams[id];
        (Apply(c0.(engine := c0.engine.(streams := c0.engine.streams[
                     id := s.(sent := s.sent + [Payload(data, fin)])])), e), OK)
  }

  /** ResetStream and StopSending: the library's reaction is the effect. */
  function SignalStream(c: Core, id: StreamId, e: Effect): (Core, Status)
  {
    var c0 := Clear(c);
    if !Usable(c0) then Unusable(c0)
    else if id !in c0.engine.streams then MissingStream(c0, id)
    else (Apply(c0, e), OK)
  }

  // ----- datagrams (raw and WebTransport)

  function SendDatagram(c: Core, a: Answer, e: Effect): (Core, Status)
  {
    var c0 := Clear(c);
    if !Usable(c0) then Unusable(c0)
    else
      match a.datagram
      case Success => (Apply(c0, e), OK)
      case Blocked => (c0, WOULD_BLOCK)
      case TooBig(message) => (SetError(c0, message), TOO_BIG)
      case InternalError(message) => (SetError(c0, message), ERROR)
  }

  function PeekDatagramSize(c: Core): (Core, Status, nat)
  {
    var c0 := Clear(c);
    if c.kind.Wt? && !Usable(c0) then var (c1, st) := Unusable(c0); (c1, st, 0)
    else if c0.visitor.datagrams == [] then (c0, WOULD_BLOCK, 0)
    else (c0, OK, |c0.visitor.datagrams[0]|)
  }

  function TakeDatagram(c: Core): Core
    requires c.visitor.datagrams != []
  {
    c.(visitor := c.visitor.(datagrams := c.visitor.datagrams[1..]))
  }

  /** The raw client checks the buffer before taking the head, the WebTransport client after. */
  function ReceiveDatagram(c: Core, bufferLen: nat): (Core, Status, Bytes)
  {
    var c0 := Clear(c);
    if c.kind.Wt? && !Usable(c0) then var (c1, st) := Unusable(c0); (c1, st, [])
    else if c0.visitor.datagrams == [] then (c0, WOULD_BLOCK, [])
    else
      var head := c0.visitor.datagrams[0];
      if bufferLen < |head|
      then (SetError(if c.kind.Wt? then TakeDatagram(c0) else c0,
                     "buffer too small for datagram: need " + Decimal(|head|) + " bytes"), TOO_BIG, [])
      else (TakeDatagram(c0).(past := c0.past.(taken := c0.past.taken + [head])), OK, head)
  }

  // ----- requests (HTTP/3 and WebTransport CONNECT)

  /** The header loop: later values overwrite earlier ones, an empty name is an error. */
  function BuildBlock(headers: seq<Header>): Option<map<string, string>>
  {
    if headers == [] then Some(map[])
    else
      var rest := BuildBlock(headers[..|headers| - 1]);
      var (name, value) := headers[|headers| - 1];
      if rest.None? || name == "" then None else Some(rest.value[name := value])
  }

  function ConnectBlock(block: map<string, string>, serverName: string, path: string): map<string, string>
  {
    block[":scheme" := "https"][":authority" := serverName][":path" := path]
      [":method" := "CONNECT"][":protocol" := "webtransport"]
  }

  /** A request stream is created before the headers are checked. */
  function Issue(c: Core, id: StreamId): Core
  {
    c.(engine := c.engine.(issued := c.engine.issued + {id}))
  }

  function Send(c: Core, r: Request, e: Effect): Core
  {
    Apply(c.(past := c.past.(requests := c.past.requests + [r])), e)
  }

  function ConnectSession(c: Core, path: string, headers: seq<Header>, a: Answer, e: Effect): (Core, Status)
  {
    var c0 := Clear(c);
    if path == "" then (SetError(c0, "path must not be empty"), INVALID_ARGUMENT)
    else if c0.connectRequested && c0.hasTransport then (c0, OK)
    else if !c0.engine.connected then (c0, WOULD_BLOCK)
    else if !c0.engine.session then (SetError(c0, "HTTP/3 session is unavailable"), ERROR)
    else if !a.settings then (c0, WOULD_BLOCK)
    else if !a.supported then (SetError(c0, "QUIC server does not support WebTransport"), ERROR)
    else if a.stream.None? then (c0, WOULD_BLOCK)
    else
      var id := a.stream.value;
      var c1 := Issue(c0, id);
      match BuildBlock(headers)
      case None => (SetError(c1, "header name must not be empty"), INVALID_ARGUMENT)
      case Some(block) =>
        var c2 := Send(c1, Request(id, ConnectBlock(block, c.serverName, path), [], false), e);
        if !a.associated
        then
          (SetError(c2.(hasTransport := false), "failed to associate a WebTransport session with the request"), ERROR)
        else (c2.(hasTransport := true, hasVisitor := true, visitor := NEW_VISITOR, connectRequested := true,
                  past := c2.past.(arrived := [], taken := [])), OK)
  }

  function SubmitRequest(c: Core, headers: seq<Header>, body: Bytes, fin: bool, a: Answer, e: Effect)
    : (Core, Status, StreamId)
  {
    var c0 := Clear(c);
    if !c0.engine.connected then (SetError(c0, "connection is not established"), ERROR, 0)
    else if a.stream.None? then (c0, WOULD_BLOCK, 0)
    else
      var id := a.stream.value;
      var c1 := Issue(c0, id);
      match BuildBlock(headers)
      case None => (SetError(c1, "header name must not be empty"), INVALID_ARGUMENT, 0)
      case Some(block) => (Send(c1, Request(id, block, body, fin), e), OK, id)
  }

  function TakeResponse(c: Core, id: StreamId): (Core, Status, Option<Response>)
  {
    var c0 := Clear(c);
    if id !in c0.responses then (c0, WOULD_BLOCK, None)
    else (c0.(responses := c0.responses - {id}, past := c0.past.(collected := c0.past.collected + {id})),
          OK, Some(c0.responses[id]))
  }
}
