/** The glue objects as the source writes them: an object whose methods update
    its fields step by step, with status codes as results and caller-owned
    buffers filled in place. Every method is proved against its function in `Glue`. */
module GlueObject {
  import opened Prelude
  import opened Engine
  import opened Glue

  newtype int64 = x: int | -0x8000_0000_0000_0000 <= x < 0x8000_0000_0000_0000
  newtype uint64 = x: int | 0 <= x < 0x1_0000_0000_0000_0000

  /** memcpy into the front of a buffer. */
  method Copy(data: Bytes, buffer: array<bv8>)
    requires |data| <= buffer.Length
    modifies buffer
    ensures buffer[..|data|] == data && buffer[|data|..] == old(buffer[|data|..])
  {
    forall i | 0 <= i < |data| { buffer[i] := data[i]; }
  }

  class GlueClient {
    const kind: Kind
    const serverName: string
    var engine: EngineView
    var lastError: string
    var packets: seq<Bytes>
    // the session visitor
    var sessionReady: bool
    var sessionClosed: bool
    var closeCode: nat
    var closeMessage: string
    var datagrams: seq<Bytes>
    // WebTransport
    var connectRequested: bool
    var hasTransport: bool
    var hasVisitor: bool
    // HTTP/3
    var responses: map<StreamId, Response>
    ghost var past: Past

    ghost function State(): Core
      reads this
    {
      Core(kind, engine, lastError, packets, Visitor(sessionReady, sessionClosed, closeCode, closeMessage, datagrams),
           connectRequested, hasTransport, hasVisitor, responses, serverName, past)
    }

    constructor (kind: Kind, serverName: string)
      ensures State() == NewCore(kind, serverName)
    {
      this.kind, this.serverName := kind, serverName;
      engine := EngineView(false, false, {}, map[], {}, {});
      lastError, packets := "", [];
      sessionReady, sessionClosed, closeCode, closeMessage, datagrams := false, false, 0, "", [];
      connectRequested, hasTransport, hasVisitor, responses := false, false, false, map[];
      past := NEW_PAST;
    }

    // ----- last_error

    predicate IsWatching()
      reads this
      ensures IsWatching() == Watching(State())
    {
      kind.Raw? || (kind.Wt? && hasVisitor)
    }

    method SetErrorIfEmpty(message: string)
      modifies this`lastError
      ensures State() == Glue.SetErrorIfEmpty(old(State()), message)
    {
      if lastError == "" { lastError := message; }
    }

    method PopulateClosedErrorIfNeeded()
      modifies this`lastError
      ensures State() == PopulateClosed(old(State()))
    {
      if lastError != "" { return; }
      if IsWatching() && sessionClosed {
        if closeMessage != "" {
          lastError := closeMessage;
        } else {
          lastError := "session closed (error code " + Decimal(closeCode) + ")";
        }
      }
    }

    // ----- called back by the library

    /** The packet writer: the producer side of the send queue. */
    method WritePacket(packet: Bytes)
      modifies this`packets, this`past
      ensures State() == old(State()).(queue := old(packets) + [packet],
                                       past := old(past).(written := old(past).written + [packet]))
    {
      packets := packets + [packet];
      past := past.(written := past.written + [packet]);
    }

    method OnSessionReady()
      requires IsWatching()
      modifies this`sessionReady
      ensures State() == OnEvent(old(State()), SessionReady)
    {
      sessionReady := true;
    }

    method OnSessionClosed(code: nat, message: string)
      requires IsWatching()
      modifies this`sessionReady, this`sessionClosed, this`closeCode, this`closeMessage
      ensures State() == OnEvent(old(State()), SessionClosed(code, message))
    {
      sessionReady := false;
      sessionClosed := true;
      closeCode := code;
      closeMessage := message;
    }

    method OnDatagramReceived(data: Bytes)
      requires IsWatching()
      modifies this`datagrams, this`past
      ensures State() == OnEvent(old(State()), DatagramReceived(data))
    {
      datagrams := datagrams + [data];
      past := past.(arrived := past.arrived + [data]);
    }

    method OnCompleteResponse(id: StreamId, headers: seq<Header>, body: Bytes)
      requires kind.H3?
      modifies this`responses, this`past
      ensures State() == OnEvent(old(State()), ResponseComplete(id, headers, body))
    {
      var statusCode := ReadStatus(headers);
      var copied: seq<Header> := [];
      for i := 0 to |headers|
        invariant copied == headers[..i]
      {
        copied := copied + [headers[i]];
      }
      assert copied == headers;
      responses := responses[id := Response(id, statusCode, copied, body)];
      past := past.(completed := past.completed[id := Completion(copied, body)]);
    }

    /** find(":status"), then a number or 0. */
    method ReadStatus(headers: seq<Header>) returns (code: int)
      ensures code == StatusOf(headers)
    {
      code := 0;
      var i := 0;
      while i < |headers| && headers[i].0 != ":status"
        invariant i <= |headers| && StatusOf(headers) == StatusOf(headers[i..])
      {
        assert headers[i..][1..] == headers[i + 1..];
        i := i + 1;
      }
      if i < |headers| {
        var parsed := ParseInt(headers[i].1);
        if parsed.Some? { code := parsed.value; }
      }
    }

    method Dispatch(ev: Event)
      modifies this
      ensures State() == OnEvent(old(State()), ev)
    {
      match ev
      case SessionReady =>
        if IsWatching() { OnSessionReady(); }
      case SessionClosed(code, message) =>
        if IsWatching() { OnSessionClosed(code, message); }
      case DatagramReceived(data) =>
        if IsWatching() { OnDatagramReceived(data); }
      case StreamData(id, data, fin) =>
        var stream := if id in engine.streams then engine.streams[id] else NEW_STREAM;
        var incoming := if id in engine.streams then engine.incoming else engine.incoming + {id};
        engine := engine.(streams := engine.streams[id := Arrive(stream, data, fin)], issued := engine.issued + {id},
                          incoming := incoming);
      case StreamGone(id) =>
        if id in engine.streams { past := past.(gone := past.gone[id := engine.streams[id]]); }
        engine := engine.(streams := engine.streams - {id}, incoming := engine.incoming - {id});
      case ResponseComplete(id, headers, body) =>
        if kind.H3? { OnCompleteResponse(id, headers, body); }
    }

    /** Control inside the library: it writes packets and calls back. */
    method InLibrary(e: Effect)
      modifies this
      ensures State() == Apply(old(State()), e)
    {
      engine := engine.(connected := e.connected, alarms := e.alarms);
      label called:
      for i := 0 to |e.packets|
        invariant State() == old@called(State()).(queue := old(packets) + e.packets[..i],
                                                  past := old(past).(written := old(past).written + e.packets[..i]))
      {
        WritePacket(e.packets[i]);
        assert e.packets[..i + 1] == e.packets[..i] + [e.packets[i]];
      }
      assert e.packets[..|e.packets|] == e.packets;
      label written:
      for i := 0 to |e.events|
        invariant Deliver(State(), e.events[i..]) == Deliver(old@written(State()), e.events)
      {
        Dispatch(e.events[i]);
        assert e.events[i..][0] == e.events[i] && e.events[i..][1..] == e.events[i + 1..];
      }
    }

    // ----- connection

    /** A visitor that has seen nothing yet. */
    method ResetVisitor()
      modifies this
      ensures State() == old(State()).(visitor := NEW_VISITOR, past := old(past).(arrived := [], taken := []))
    {
      sessionReady, sessionClosed, closeCode, closeMessage, datagrams := false, false, 0, "", [];
      past := past.(arrived := [], taken := []);
    }

    /** What Start forgets before a new handshake. */
    method ForgetSession()
      modifies this
      ensures State() == ResetSession(old(State()))
    {
      if kind.Raw? {
        ResetVisitor();
      } else if kind.Wt? {
        hasTransport := false;
        hasVisitor := false;
        connectRequested := false;
        past := past.(requests := [], arrived := [], taken := []);
      }
    }

    method Start(initialized: bool, attempting: bool, e: Effect) returns (st: Status)
      modifies this
      ensures (State(), st) == Glue.Start(old(State()), initialized, attempting, e)
    {
      lastError := "";
      if engine.connected { return OK; }
      ForgetSession();
      if !initialized {
        lastError := "failed to initialize the " + Name(kind) + " client";
        return ERROR;
      }
      engine := engine.(session := true);
      InLibrary(e);
      if !(engine.connected || attempting) {
        PopulateClosedErrorIfNeeded();
        SetErrorIfEmpty("failed to start the " + Name(kind) + " handshake");
        return ERROR;
      }
      return OK;
    }

    method ReceivePacket(data: Bytes, e: Effect) returns (st: Status)
      modifies this
      ensures (State(), st) == Glue.ReceivePacket(old(State()), data, e)
    {
      lastError := "";
      if data == [] { return OK; }
      if !engine.session {
        lastError := "handshake has not been started";
        return ERROR;
      }
      InLibrary(e);
      if !engine.connected {
        PopulateClosedErrorIfNeeded();
        SetErrorIfEmpty("connection closed while processing a packet");
        return CLOSED;
      }
      return OK;
    }

    /** Pops one packet into the buffer; an offer that is too small leaves it in place. */
    method NextSend(buffer: array<bv8>) returns (st: Status, written: nat)
      modifies this, buffer
      ensures var (c, status, packet) := Glue.NextSend(old(State()), buffer.Length);
        && State() == c && st == status && written == |packet| && written <= buffer.Length
        && buffer[..written] == packet && buffer[written..] == old(buffer[..])[written..]
    {
      written := 0;
      if packets == [] { return WOULD_BLOCK, 0; }
      var front := packets[0];
      if buffer.Length < |front| {
        lastError := "buffer too small for packet: need " + Decimal(|front|) + " bytes";
        return TOO_BIG, 0;
      }
      Copy(front, buffer);
      written := |front|;
      packets := packets[1..];
      past := past.(popped := past.popped + [front]);
      return OK, written;
    }

    /** The rounding in 64-bit signed arithmetic: neither the difference nor the addition overflows. */
    method NextTimeoutMs(now: int) returns (timeoutMs: uint64, hasTimeout: bool)
      requires TimesOk(engine.alarms) && 0 <= now <= TIME_LIMIT
      modifies this`lastError
      ensures var (c, timeout) := Glue.NextTimeoutMs(old(State()), now);
        && State() == c && hasTimeout == timeout.Some?
        && timeoutMs as int == (if timeout.Some? then timeout.value else 0)
    {
      lastError := "";
      timeoutMs, hasTimeout := 0, false;
      if engine.alarms == {} { return; }
      var remaining := (Earliest(engine.alarms) - now) as int64;
      if remaining < 0 { remaining := 0; }
      timeoutMs := ((remaining + 999) / 1000) as uint64;
      hasTimeout := true;
    }

    method HandleTimeout(e: Effect) returns (st: Status)
      modifies this
      ensures (State(), st) == Glue.HandleTimeout(old(State()), e)
    {
      lastError := "";
      InLibrary(e);
      if !engine.connected {
        PopulateClosedErrorIfNeeded();
        SetErrorIfEmpty("connection closed while handling a timeout");
        return CLOSED;
      }
      return OK;
    }

    method Close(e: Effect)
      modifies this
      ensures State() == Glue.Close(old(State()), e)
    {
      lastError := "";
      if kind.Raw? && !engine.session { return; }
      InLibrary(e);
    }

    predicate IsConnected()
      reads this
      ensures IsConnected() == Glue.IsConnected(State())
    {
      engine.connected && (kind.Raw? ==> sessionReady)
    }

    predicate IsSessionReady()
      reads this
      ensures IsSessionReady() == Glue.IsSessionReady(State())
    {
      hasVisitor && sessionReady
    }

    // ----- streams

    /** EnsureConnected (raw) and EnsureSessionReady (WebTransport). */
    method EnsureUsable() returns (st: Status)
      modifies this`lastError
      ensures Usable(old(State())) ==> st == OK && State() == old(State())
      ensures !Usable(old(State())) ==> (State(), st) == Unusable(old(State())) && st != OK
    {
      if kind.Raw? {
        if engine.connected && sessionReady { return OK; }
        PopulateClosedErrorIfNeeded();
        SetErrorIfEmpty("connection is not open");
        return CLOSED;
      }
      if kind.H3? || !hasTransport || !hasVisitor || !sessionReady {
        lastError := "WebTransport session is not ready";
        return ERROR;
      }
      return OK;
    }

    method RequireStream(id: StreamId) returns (st: Status)
      modifies this`lastError
      ensures st == OK <==> Usable(old(State())) && id in engine.streams
      ensures st == OK ==> State() == old(State())
      ensures !Usable(old(State())) ==> (State(), st) == Unusable(old(State()))
      ensures Usable(old(State())) && id !in engine.streams ==> (State(), st) == MissingStream(old(State()), id)
    {
      st := EnsureUsable();
      if st != OK { return; }
      if id in engine.streams { return OK; }
      lastError := "stream " + Decimal(id) + " is not available";
      return NOT_FOUND;
    }

    method OpenStream(a: Answer, e: Effect) returns (st: Status, id: StreamId)
      modifies this
      ensures (State(), st, id) == Glue.OpenStream(old(State()), a, e)
    {
      lastError := "";
      id := 0;
      st := EnsureUsable();
      if st != OK { return; }
      if a.stream.None? { return WOULD_BLOCK, 0; }
      id := a.stream.value;
      engine := engine.(streams := engine.streams[id := NEW_STREAM], issued := engine.issued + {id});
      InLibrary(e);
    }

    method AcceptStream(a: Answer) returns (st: Status, id: StreamId)
      modifies this`lastError, this`engine
      ensures (State(), st, id) == Glue.AcceptStream(old(State()), a)
    {
      lastError := "";
      id := 0;
      st := EnsureUsable();
      if st != OK { return; }
      if a.stream.None? { return WOULD_BLOCK, 0; }
      id := a.stream.value;
      engine := engine.(incoming := engine.incoming - {id});
    }

    /** Peek, then SkipBytes(0) at the end of a raw stream, else read into the buffer. */
    method ReadStream(id: StreamId, buffer: array<bv8>, region: nat, e: Effect)
      returns (st: Status, bytesRead: nat, fin: bool)
      requires id in engine.streams ==> RegionOk(engine.streams[id], region)
      modifies this, buffer
      ensures var (c, status, data, ended) := Glue.ReadStream(old(State()), id, buffer.Length, region, e);
        && State() == c && st == status && fin == ended && bytesRead == |data| && bytesRead <= buffer.Length
        && buffer[..bytesRead] == data && buffer[bytesRead..] == old(buffer[..])[bytesRead..]
    {
      lastError := "";
      bytesRead, fin := 0, false;
      st := RequireStream(id);
      if st != OK { return; }
      st, bytesRead, fin := ReadOpen(id, buffer, region, e);
    }

    /** The rest of ReadStream, once the stream is known to be there. */
    method ReadOpen(id: StreamId, buffer: array<bv8>, region: nat, e: Effect)
      returns (st: Status, bytesRead: nat, fin: bool)
      requires id in engine.streams && RegionOk(engine.streams[id], region)
      modifies this, buffer
      ensures var (c, status, data, ended) := Glue.ReadOpen(old(State()), id, buffer.Length, region, e);
        && State() == c && st == status && fin == ended && bytesRead == |data| && bytesRead <= buffer.Length
        && buffer[..bytesRead] == data && buffer[bytesRead..] == old(buffer[..])[bytesRead..]
    {
      st, bytesRead, fin := OK, 0, false;
      var stream := engine.streams[id];
      var peek := Peek(stream, region);
      if !HasData(peek) { return WOULD_BLOCK, 0, false; }
      if kind.Raw? && peek.data == [] && peek.finNext {
        fin := SkipNothing(stream);
        InLibrary(e);
        return;
      }
      if buffer.Length == 0 {
        lastError := if kind.Raw? then "buffer length must be greater than zero"
                     else "buffer_len must be greater than zero";
        return INVALID_ARGUMENT, 0, false;
      }
      bytesRead, fin := ReadInto(id, buffer, e);
      if kind.Raw? && bytesRead == 0 && !fin { st := WOULD_BLOCK; }
    }

    /** Read: as many unread bytes as fit go to the front of the buffer. */
    method ReadInto(id: StreamId, buffer: array<bv8>, e: Effect) returns (bytesRead: nat, fin: bool)
      requires id in engine.streams
      modifies this, buffer
      ensures var (rest, data, ended) := ReadUpTo(old(engine).streams[id], buffer.Length);
        && State() == Apply(old(State()).(engine := old(engine).(streams := old(engine).streams[id := rest])), e)
        && fin == ended && bytesRead == |data| <= buffer.Length
        && buffer[..bytesRead] == data && buffer[bytesRead..] == old(buffer[..])[bytesRead..]
    {
      var (rest, data, ended) := ReadUpTo(engine.streams[id], buffer.Length);
      Copy(data, buffer);
      bytesRead, fin := |data|, ended;
      engine := engine.(streams := engine.streams[id := rest]);
      InLibrary(e);
    }

    method WriteStream(id: StreamId, data: Bytes, fin: bool, a: Answer, e: Effect) returns (st: Status)
      modifies this
      ensures (State(), st) == Glue.WriteStream(old(State()), id, data, fin, a, e)
    {
      lastError := "";
      if data == [] && !fin {
        lastError := if kind.Raw? then "writing empty data requires fin=true" else "empty write requires fin=true";
        return INVALID_ARGUMENT;
      }
      st := RequireStream(id);
      if st != OK { return; }
      if !a.canWrite { return WOULD_BLOCK; }
      match a.write
      case Unavailable => return WOULD_BLOCK;
      case Refused(message) =>
        lastError := message;
        return ERROR;
      case Accepted =>
        var stream := engine.streams[id];
        engine := engine.(streams := engine.streams[
          id := stream.(sent := stream.sent + [Payload(data, fin)])]);
        InLibrary(e);
        return OK;
    }

    /** ResetStream and StopSending. */
    method SignalStream(id: StreamId, e: Effect) returns (st: Status)
      modifies this
      ensures (State(), st) == Glue.SignalStream(old(State()), id, e)
    {
      lastError := "";
      st := RequireStream(id);
      if st != OK { return; }
      InLibrary(e);
    }

    // ----- datagrams

    method SendDatagram(a: Answer, e: Effect) returns (st: Status)
      modifies this
      ensures (State(), st) == Glue.SendDatagram(old(State()), a, e)
    {
      lastError := "";
      st := EnsureUsable();
      if st != OK { return; }
      match a.datagram
      case Success => InLibrary(e);
      case Blocked => st := WOULD_BLOCK;
      case TooBig(message) => lastError := message; st := TOO_BIG;
      case InternalError(message) => lastError := message; st := ERROR;
    }

    method PeekDatagramSize() returns (st: Status, size: nat)
      modifies this`lastError
      ensures (State(), st, size) == Glue.PeekDatagramSize(old(State()))
    {
      lastError := "";
      size := 0;
      if kind.Wt? {
        st := EnsureUsable();
        if st != OK { return; }
      }
      if datagrams == [] { return WOULD_BLOCK, 0; }
      return OK, |datagrams[0]|;
    }

    /** The raw object looks before it takes; the WebTransport object takes before it looks. */
    method ReceiveDatagram(buffer: array<bv8>) returns (st: Status, bytesRead: nat)
      modifies this, buffer
      ensures var (c, status, data) := Glue.ReceiveDatagram(old(State()), buffer.Length);
        && State() == c && st == status && bytesRead == |data| && bytesRead <= buffer.Length
        && buffer[..bytesRead] == data && buffer[bytesRead..] == old(buffer[..])[bytesRead..]
    {
      lastError := "";
      bytesRead := 0;
      if kind.Wt? {
        st := EnsureUsable();
        if st != OK { return; }
      }
      if datagrams == [] { return WOULD_BLOCK, 0; }
      var head := datagrams[0];
      if kind.Wt? { datagrams := datagrams[1..]; }
      if buffer.Length < |head| {
        lastError := "buffer too small for datagram: need " + Decimal(|head|) + " bytes";
        return TOO_BIG, 0;
      }
      if !kind.Wt? { datagrams := datagrams[1..]; }
      Copy(head, buffer);
      past := past.(taken := past.taken + [head]);
      return OK, |head|;
    }

    // ----- requests

    /** The header loop; `ok` is false as soon as a name is empty. */
    method FillBlock(headers: seq<Header>) returns (ok: bool, block: map<string, string>)
      ensures ok <==> BuildBlock(headers).Some?
      ensures ok ==> BuildBlock(headers) == Some(block)
    {
      block := map[];
      for i := 0 to |headers|
        invariant BuildBlock(headers[..i]) == Some(block)
      {
        var (name, value) := headers[i];
        assert headers[..i + 1][..i] == headers[..i];
        if name == "" {
          EmptyNameSpoils(headers, i);
          return false, block;
        }
        block := block[name := value];
      }
      assert headers[..|headers|] == headers;
      return true, block;
    }

    method ConnectSession(path: string, headers: seq<Header>, a: Answer, e: Effect) returns (st: Status)
      modifies this
      ensures (State(), st) == Glue.ConnectSession(old(State()), path, headers, a, e)
    {
      lastError := "";
      if path == "" {
        lastError := "path must not be empty";
        return INVALID_ARGUMENT;
      }
      if connectRequested && hasTransport { return OK; }
      if !engine.connected { return WOULD_BLOCK; }
      if !engine.session {
        lastError := "HTTP/3 session is unavailable";
        return ERROR;
      }
      if !a.settings { return WOULD_BLOCK; }
      if !a.supported {
        lastError := "QUIC server does not support WebTransport";
        return ERROR;
      }
      if a.stream.None? { return WOULD_BLOCK; }
      st := RequestSession(path, headers, a, e);
    }

    /** The second half of ConnectSession, from the moment the request stream exists. */
    method RequestSession(path: string, headers: seq<Header>, a: Answer, e: Effect) returns (st: Status)
      requires lastError == "" && path != "" && engine.connected && engine.session
      requires !(connectRequested && hasTransport) && a.settings && a.supported && a.stream.Some?
      modifies this
      ensures (State(), st) == Glue.ConnectSession(old(State()), path, headers, a, e)
    {
      engine := engine.(issued := engine.issued + {a.stream.value});
      var ok, block := FillBlock(headers);
      if !ok {
        lastError := "header name must not be empty";
        return INVALID_ARGUMENT;
      }
      block := AddPseudoHeaders(block, path);
      SendRequest(Request(a.stream.value, block, [], false), e);
      st := Associate(a.associated);
    }

    /** Takes the session that the library associated with the request, and attaches a new visitor. */
    method Associate(associated: bool) returns (st: Status)
      modifies this
      ensures (State(), st) ==
        if associated
        then (old(State()).(hasTransport := true, hasVisitor := true, visitor := NEW_VISITOR, connectRequested := true,
                            past := old(past).(arrived := [], taken := [])), OK)
        else (SetError(old(State()).(hasTransport := false),
                       "failed to associate a WebTransport session with the request"), ERROR)
    {
      hasTransport := associated;
      if !hasTransport {
        lastError := "failed to associate a WebTransport session with the request";
        return ERROR;
      }
      hasVisitor := true;
      ResetVisitor();
      connectRequested := true;
      return OK;
    }

    /** Assigned after the caller's headers, so they win. */
    method AddPseudoHeaders(headers: map<string, string>, path: string) returns (block: map<string, string>)
      ensures block == ConnectBlock(headers, serverName, path)
    {
      block := headers[":scheme" := "https"];
      block := block[":authority" := serverName];
      block := block[":path" := path];
      block := block[":method" := "CONNECT"];
      block := block[":protocol" := "webtransport"];
    }

    method SendRequest(request: Request, e: Effect)
      modifies this
      ensures State() == Send(old(State()), request, e)
    {
      past := past.(requests := past.requests + [request]);
      InLibrary(e);
    }

    method SubmitRequest(headers: seq<Header>, body: Bytes, fin: bool, a: Answer, e: Effect)
      returns (st: Status, id: StreamId)
      modifies this
      ensures (State(), st, id) == Glue.SubmitRequest(old(State()), headers, body, fin, a, e)
    {
      lastError := "";
      id := 0;
      if !engine.connected {
        lastError := "connection is not established";
        return ERROR, 0;
      }
      if a.stream.None? { return WOULD_BLOCK, 0; }
      engine := engine.(issued := engine.issued + {a.stream.value});
      var ok, block := FillBlock(headers);
      if !ok {
        lastError := "header name must not be empty";
        return INVALID_ARGUMENT, 0;
      }
      SendRequest(Request(a.stream.value, block, body, fin), e);
      return OK, a.stream.value;
    }

    method TakeResponse(id: StreamId) returns (st: Status, response: Option<Response>)
      modifies this
      ensures (State(), st, response) == Glue.TakeResponse(old(State()), id)
    {
      lastError := "";
      response := None;
      if id !in responses { return WOULD_BLOCK, None; }
      response := Some(responses[id]);
      responses := responses - {id};
      past := past.(collected := past.collected + {id});
      return OK, response;
    }
  }

  /** One empty name anywhere spoils the whole list. */
  lemma {:induction false} EmptyNameSpoils(headers: seq<Header>, i: nat)
    requires i < |headers| && headers[i].0 == ""
    ensures BuildBlock(headers).None?
  {
    if i < |headers| - 1 { EmptyNameSpoils(headers[..|headers| - 1], i); }
  }
}
