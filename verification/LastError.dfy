/** The last_error state machine of a constructed client, over every call of the
    glue: what a call leaves behind depends on nothing that earlier calls left. */
module LastError {
  import opened Prelude
  import opened Engine
  import opened Glue
  import opened GlueInvariant

  datatype GlueCall =
    | StartCall(initialized: bool, attempting: bool, e: Effect)
    | ReceivePacketCall(data: Bytes, e: Effect)
    | HandleTimeoutCall(e: Effect)
    | NextTimeoutCall(now: int)
    | CloseCall(e: Effect)
    | OpenStreamCall(a: Answer, e: Effect)
    | AcceptStreamCall(a: Answer)
    | ReadStreamCall(id: StreamId, n: nat, region: nat, e: Effect)
    | WriteStreamCall(id: StreamId, data: Bytes, fin: bool, a: Answer, e: Effect)
    | SignalStreamCall(id: StreamId, e: Effect)
    | SendDatagramCall(a: Answer, e: Effect)
    | PeekDatagramCall
    | ReceiveDatagramCall(bufferLen: nat)
    | ConnectSessionCall(path: string, headers: seq<Header>, a: Answer, e: Effect)
    | SubmitRequestCall(headers: seq<Header>, body: Bytes, fin: bool, a: Answer, e: Effect)
    | TakeResponseCall(id: StreamId)

  predicate CanCall(c: Core, call: GlueCall)
  {
    call.ReadStreamCall? && call.id in c.engine.streams ==> RegionOk(c.engine.streams[call.id], call.region)
  }

  function Do(c: Core, call: GlueCall): (Core, Status)
    requires CanCall(c, call)
  {
    match call
    case StartCall(i, a, e) => Start(c, i, a, e)
    case ReceivePacketCall(data, e) => ReceivePacket(c, data, e)
    case HandleTimeoutCall(e) => HandleTimeout(c, e)
    case NextTimeoutCall(now) => (NextTimeoutMs(c, now).0, OK)
    case CloseCall(e) => (Close(c, e), OK)
    case OpenStreamCall(a, e) => var (c', st, _) := OpenStream(c, a, e); (c', st)
    case AcceptStreamCall(a) => var (c', st, _) := AcceptStream(c, a); (c', st)
    case ReadStreamCall(id, n, region, e) => var (c', st, _, _) := ReadStream(c, id, n, region, e); (c', st)
    case WriteStreamCall(id, data, fin, a, e) => WriteStream(c, id, data, fin, a, e)
    case SignalStreamCall(id, e) => SignalStream(c, id, e)
    case SendDatagramCall(a, e) => SendDatagram(c, a, e)
    case PeekDatagramCall => var (c', st, _) := PeekDatagramSize(c); (c', st)
    case ReceiveDatagramCall(n) => var (c', st, _) := ReceiveDatagram(c, n); (c', st)
    case ConnectSessionCall(path, headers, a, e) => ConnectSession(c, path, headers, a, e)
    case SubmitRequestCall(headers, body, fin, a, e) =>
      var (c', st, _) := SubmitRequest(c, headers, body, fin, a, e); (c', st)
    case TakeResponseCall(id) => var (c', st, _) := TakeResponse(c, id); (c', st)
  }

  /** The generic text a call records when it finds the connection closed. */
  function GenericText(call: GlueCall): string
  {
    match call
    case ReceivePacketCall(_, _) => "connection closed while processing a packet"
    case HandleTimeoutCall(_) => "connection closed while handling a timeout"
    case _ => "connection is not open"
  }

  lemma {:induction false} DeliverKeepsText(c: Core, events: seq<Event>)
    ensures Deliver(c, events).lastError == c.lastError && Deliver(c, events).kind == c.kind
    decreases |events|
  {
    if events != [] { DeliverKeepsText(OnEvent(c, events[0]), events[1..]); }
  }

  lemma ApplyKeepsText(c: Core, e: Effect)
    ensures Apply(c, e).lastError == c.lastError && Apply(c, e).kind == c.kind
  {
    DeliverKeepsText(c.(engine := c.engine.(connected := e.connected, alarms := e.alarms),
                        queue := c.queue + e.packets,
                        past := c.past.(written := c.past.written + e.packets)), e.events);
  }

  lemma ApplyAlwaysKeepsText()
    ensures forall c, e :: Apply(c, e).lastError == c.lastError && Apply(c, e).kind == c.kind
  {
    forall c, e ensures Apply(c, e).lastError == c.lastError && Apply(c, e).kind == c.kind { ApplyKeepsText(c, e); }
  }

  /** The text that fits a status. */
  predicate TextFits(c: Core, st: Status, generic: string)
  {
    && (st == OK || st == WOULD_BLOCK ==> c.lastError == "")
    && (st == CLOSED ==> c.lastError == ClosedText(c, generic) && c.lastError != "")
  }

  lemma ConnectionTextFits(c: Core, call: GlueCall)
    requires call.StartCall? || call.ReceivePacketCall? || call.HandleTimeoutCall?
             || call.NextTimeoutCall? || call.CloseCall?
    ensures TextFits(Do(c, call).0, Do(c, call).1, GenericText(call))
  {
    ApplyAlwaysKeepsText();
    CloseTextNonEmpty();
  }

  lemma OpenTextFits(c: Core, call: GlueCall)
    requires call.OpenStreamCall? || call.AcceptStreamCall?
    ensures TextFits(Do(c, call).0, Do(c, call).1, GenericText(call))
  {
    ApplyAlwaysKeepsText();
    CloseTextNonEmpty();
  }

  lemma WriteTextFits(c: Core, call: GlueCall)
    requires call.SignalStreamCall? || call.WriteStreamCall?
    ensures TextFits(Do(c, call).0, Do(c, call).1, GenericText(call))
  {
    ApplyAlwaysKeepsText();
    CloseTextNonEmpty();
  }

  lemma ReadTextFits(c: Core, call: GlueCall)
    requires CanCall(c, call) && call.ReadStreamCall?
    ensures TextFits(Do(c, call).0, Do(c, call).1, GenericText(call))
  {
    ApplyAlwaysKeepsText();
    CloseTextNonEmpty();
  }

  lemma SendTextFits(c: Core, call: GlueCall)
    requires call.SendDatagramCall?
    ensures TextFits(Do(c, call).0, Do(c, call).1, GenericText(call))
  {
    ApplyAlwaysKeepsText();
    CloseTextNonEmpty();
  }

  lemma DatagramTextFits(c: Core, call: GlueCall)
    requires call.PeekDatagramCall? || call.ReceiveDatagramCall?
    ensures TextFits(Do(c, call).0, Do(c, call).1, GenericText(call))
  {
    CloseTextNonEmpty();
  }

  lemma RequestTextFits(c: Core, call: GlueCall)
    requires call.ConnectSessionCall? || call.SubmitRequestCall? || call.TakeResponseCall?
    ensures TextFits(Do(c, call).0, Do(c, call).1, GenericText(call))
  {
    ApplyAlwaysKeepsText();
  }

  /** OK and WOULD_BLOCK leave last_error empty. CLOSED leaves the peer's close message, else its
      code, else the call's generic text, and never an empty text. */
  lemma ErrorTextFits(c: Core, call: GlueCall)
    requires CanCall(c, call)
    ensures TextFits(Do(c, call).0, Do(c, call).1, GenericText(call))
  {
    match call
    case StartCall(_, _, _) => ConnectionTextFits(c, call);
    case ReceivePacketCall(_, _) => ConnectionTextFits(c, call);
    case HandleTimeoutCall(_) => ConnectionTextFits(c, call);
    case NextTimeoutCall(_) => ConnectionTextFits(c, call);
    case CloseCall(_) => ConnectionTextFits(c, call);
    case ReadStreamCall(_, _, _, _) => ReadTextFits(c, call);
    case OpenStreamCall(_, _) => OpenTextFits(c, call);
    case AcceptStreamCall(_) => OpenTextFits(c, call);
    case SignalStreamCall(_, _) => WriteTextFits(c, call);
    case WriteStreamCall(_, _, _, _, _) => WriteTextFits(c, call);
    case SendDatagramCall(_, _) => SendTextFits(c, call);
    case PeekDatagramCall => DatagramTextFits(c, call);
    case ReceiveDatagramCall(_) => DatagramTextFits(c, call);
    case _ => RequestTextFits(c, call);
  }

  /** Nothing an earlier call recorded survives into a later one, or changes what it does. */
  lemma EarlierTextIsForgotten(c: Core, text: string, call: GlueCall)
    requires CanCall(c, call)
    ensures Do(c.(lastError := text), call) == Do(c, call)
  {
    var d := c.(lastError := text);
    assert Clear(d) == Clear(c);
    match call
    case StartCall(i, a, e) => assert Start(d, i, a, e) == Start(c, i, a, e);
    case ReceivePacketCall(data, e) => assert ReceivePacket(d, data, e) == ReceivePacket(c, data, e);
    case HandleTimeoutCall(e) => assert HandleTimeout(d, e) == HandleTimeout(c, e);
    case ReadStreamCall(id, n, region, e) => assert ReadStream(d, id, n, region, e) == ReadStream(c, id, n, region, e);
    case NextTimeoutCall(now) => assert NextTimeoutMs(d, now) == NextTimeoutMs(c, now);
    case CloseCall(e) => assert Close(d, e) == Close(c, e);
    case PeekDatagramCall => assert PeekDatagramSize(d) == PeekDatagramSize(c);
    case ReceiveDatagramCall(n) => assert ReceiveDatagram(d, n) == ReceiveDatagram(c, n);
    case ConnectSessionCall(_, _, _, _) => RequestTextIsForgotten(c, text, call);
    case SubmitRequestCall(_, _, _, _, _) => RequestTextIsForgotten(c, text, call);
    case TakeResponseCall(_) => RequestTextIsForgotten(c, text, call);
    case _ => StreamTextIsForgotten(c, text, call);
  }

  lemma StreamTextIsForgotten(c: Core, text: string, call: GlueCall)
    requires call.OpenStreamCall? || call.AcceptStreamCall? || call.WriteStreamCall? || call.SignalStreamCall?
             || call.SendDatagramCall?
    ensures Do(c.(lastError := text), call) == Do(c, call)
  {
    assert Clear(c.(lastError := text)) == Clear(c);
  }

  lemma RequestTextIsForgotten(c: Core, text: string, call: GlueCall)
    requires call.ConnectSessionCall? || call.SubmitRequestCall? || call.TakeResponseCall?
    ensures Do(c.(lastError := text), call) == Do(c, call)
  {
    assert Clear(c.(lastError := text)) == Clear(c);
  }

  /** The one call that keeps it: while a packet is fetched the text of the last event survives. */
  lemma NextSendKeepsText(c: Core, bufferLen: nat)
    requires forall i :: 0 <= i < |c.queue| ==> |c.queue[i]| <= bufferLen
    ensures NextSend(c, bufferLen).0.lastError == c.lastError
  {}
}
