/** The library's contract for each call, and what every glue operation keeps:
    packets and datagrams are conserved in order, streams lose no byte, HTTP/3
    responses pair with streams, and the WebTransport CONNECT state is consistent. */
module GlueInvariant {
  import opened Prelude
  import opened Engine
  import opened Glue

  // ----- contract

  /** The part of the library's state that decides which callbacks may come next. */
  datatype Ledger = Ledger(http: bool, streams: map<StreamId, Stream>, issued: set<StreamId>, completed: set<StreamId>)

  function LedgerOf(c: Core): Ledger
  {
    Ledger(c.kind.H3?, c.engine.streams, c.engine.issued, c.past.completed.Keys)
  }

  /** Bytes never follow FIN, stream ids are never reused, and a response completes once, on an issued stream. */
  predicate EventOk(l: Ledger, ev: Event)
  {
    match ev
    case StreamData(id, data, fin) =>
      if id in l.streams then l.streams[id].finReceived ==> data == [] else id !in l.issued
    case ResponseComplete(id, _, _) => l.http && id in l.issued && id !in l.completed
    case _ => true
  }

  function AfterEvent(l: Ledger, ev: Event): Ledger
  {
    match ev
    case StreamData(id, data, fin) =>
      var st := if id in l.streams then l.streams[id] else NEW_STREAM;
      l.(streams := l.streams[id := Arrive(st, data, fin)], issued := l.issued + {id})
    case StreamGone(id) => l.(streams := l.streams - {id})
    case ResponseComplete(id, _, _) => if l.http then l.(completed := l.completed + {id}) else l
    case _ => l
  }

  predicate EventsOk(l: Ledger, events: seq<Event>)
    decreases |events|
  {
    events == [] || (EventOk(l, events[0]) && EventsOk(AfterEvent(l, events[0]), events[1..]))
  }

  /** Answers allowed inside start. */
  predicate StartEffectOk(c: Core, e: Effect)
  {
    PacketsOk(e.packets) && TimesOk(e.alarms) && EventsOk(LedgerOf(c), e.events)
  }

  /** Answers allowed inside receive, timeout and close: a lost connection does not come
      back, and without a session there is nobody to call back. */
  predicate EffectOk(c: Core, e: Effect)
  {
    StartEffectOk(c, e) && (e.connected ==> c.engine.connected) && (!c.engine.session ==> e.events == [])
  }

  /** Answers allowed inside an application call: the connection and session state stay, streams may go. */
  predicate AppEffectOk(c: Core, e: Effect)
  {
    && PacketsOk(e.packets) && TimesOk(e.alarms) && e.connected == c.engine.connected
    && forall i :: 0 <= i < |e.events| ==> e.events[i].StreamGone?
  }

  /** Whatever was due has fired; alarms set meanwhile are later. */
  predicate TimeoutEffectOk(c: Core, e: Effect, now: int)
  {
    EffectOk(c, e) && forall a :: a in e.alarms ==> a > now
  }

  predicate FreshId(c: Core, a: Answer) { a.stream.Some? ==> a.stream.value !in c.engine.issued }

  // ----- invariant

  predicate Conserved(c: Core) { c.past.popped + c.queue == c.past.written }

  predicate DatagramsOk(c: Core) { Watching(c) ==> c.past.arrived == c.past.taken + c.visitor.datagrams }

  ghost predicate StreamsOk(c: Core)
  {
    c.engine.incoming <= c.engine.issued && AllStreamsOk(StreamsOf(c), c.engine.issued)
  }

  ghost predicate AllStreamsOk(s: Streams, issued: set<StreamId>)
  {
    s.kept.Keys !! s.gone.Keys && forall id :: Had(s, id) ==> StreamOk(Last(s, id)) && id in issued
  }

  predicate ResponsesOk(c: Core)
  {
    && c.past.completed.Keys == c.past.collected + c.responses.Keys
    && c.past.collected !! c.responses.Keys
    && c.past.completed.Keys <= c.engine.issued
    && forall id :: id in c.responses ==> c.responses[id] == Answering(id, c.past.completed[id])
  }

  predicate ConnectOk(c: Core)
  {
    && (c.connectRequested <==> c.hasTransport)
    && (c.hasTransport <==> c.hasVisitor)
    && (c.connectRequested ==> c.kind.Wt? && c.past.requests != [])
  }

  /** Before there is a session nothing has arrived. */
  predicate SessionOk(c: Core)
  {
    && (c.engine.connected || c.hasTransport ==> c.engine.session)
    && (!c.engine.session ==>
          c.engine.streams == map[] && c.past.gone == map[]
          && c.past.arrived == [] && c.past.taken == [] && c.past.requests == [])
    && (c.kind.Wt? && !c.hasVisitor ==> c.past.taken == [])
  }

  ghost predicate CoreOk(c: Core)
  {
    && SessionOk(c) && Conserved(c) && PacketsOk(c.queue) && TimesOk(c.engine.alarms)
    && DatagramsOk(c) && StreamsOk(c) && ResponsesOk(c) && ConnectOk(c)
  }

  lemma NewCoreOk(kind: Kind, serverName: string)
    ensures CoreOk(NewCore(kind, serverName))
  {}

  /** No part of the invariant depends on last_error. */
  lemma ErrorTextIsFree(c: Core, c': Core)
    requires CoreOk(c) && c' == c.(lastError := c'.lastError)
    ensures CoreOk(c')
  {}

  // ----- delivery of callbacks

  /** Each stream that was there, dropped since or not, carries the same outbound and read bytes as before,
      any other is new; a stream that had ended received nothing more; only new streams join those waiting
      to be accepted; what had completed stays as it was. */
  ghost predicate Carried(c: Core, c': Core)
  {
    && c.engine.issued <= c'.engine.issued && Extends(c.past.completed, c'.past.completed)
    && (forall id :: id in c'.engine.incoming ==> id in c.engine.incoming || id !in c.engine.issued)
    && StreamsCarried(StreamsOf(c), StreamsOf(c'), c.engine.issued)
  }

  ghost predicate StreamsCarried(s: Streams, s': Streams, issued: set<StreamId>)
  {
    && (forall id :: Had(s, id) ==> Had(s', id))
    && forall id :: Had(s', id) ==>
      if Had(s, id)
      then Last(s', id).sent == Last(s, id).sent && Last(s', id).delivered == Last(s, id).delivered
           && Ended(Last(s, id), Last(s', id))
      else id !in issued && Last(s', id).sent == [] && Last(s', id).delivered == []
  }

  predicate Extends<K, V(==)>(m: map<K, V>, m': map<K, V>)
  {
    forall k :: k in m ==> k in m' && m'[k] == m[k]
  }

  /** After FIN nothing more arrives. */
  predicate Ended(s: Stream, s': Stream)
  {
    s.finReceived ==> s'.finReceived && s'.received == s.received
  }

  /** Fields that callbacks cannot touch. */
  predicate SameButDelivered(c: Core, c': Core)
  {
    c' == c.(engine := c.engine.(streams := c'.engine.streams, issued := c'.engine.issued,
                                 incoming := c'.engine.incoming),
             visitor := c'.visitor, responses := c'.responses,
             past := c.past.(arrived := c'.past.arrived, completed := c'.past.completed, gone := c'.past.gone))
  }

  /** What one callback may do. */
  ghost predicate Kept(c: Core, ev: Event)
  {
    && CoreOk(OnEvent(c, ev)) && SameButDelivered(c, OnEvent(c, ev)) && Carried(c, OnEvent(c, ev))
    && LedgerOf(OnEvent(c, ev)) == AfterEvent(LedgerOf(c), ev)
  }

  lemma ReadyEventKeeps(c: Core, ev: Event)
    requires CoreOk(c) && c.engine.session && ev.SessionReady?
    ensures Kept(c, ev)
  {}

  lemma ClosedEventKeeps(c: Core, ev: Event)
    requires CoreOk(c) && c.engine.session && ev.SessionClosed?
    ensures Kept(c, ev)
  {}

  lemma DatagramEventKeeps(c: Core, ev: Event)
    requires CoreOk(c) && c.engine.session && ev.DatagramReceived?
    ensures Kept(c, ev)
  {}

  lemma StreamDataCarries(c: Core, ev: Event)
    requires CoreOk(c) && EventOk(LedgerOf(c), ev) && ev.StreamData?
    ensures Carried(c, OnEvent(c, ev)) && StreamsOk(OnEvent(c, ev))
  {
    var s, id := StreamsOf(c), ev.id;
    assert Had(s, id) ==> StreamOk(Last(s, id)) && id in c.engine.issued;
    var st := if id in c.engine.streams then c.engine.streams[id] else NEW_STREAM;
    ArriveKeeps(st, ev.data, ev.fin);
    PutKeeps(s, id, Arrive(st, ev.data, ev.fin), c.engine.issued);
    PutCarries(s, id, Arrive(st, ev.data, ev.fin), c.engine.issued);
    assert StreamsOf(OnEvent(c, ev)) == Put(s, id, Arrive(st, ev.data, ev.fin));
  }

  function Put(s: Streams, id: StreamId, st: Stream): Streams { s.(kept := s.kept[id := st]) }

  function Drop(s: Streams, id: StreamId): Streams
  {
    Streams(s.kept - {id}, if id in s.kept then s.gone[id := s.kept[id]] else s.gone)
  }

  /** A stream that is new, or was there and changes. */
  lemma PutKeeps(s: Streams, id: StreamId, st: Stream, issued: set<StreamId>)
    requires AllStreamsOk(s, issued) && StreamOk(st) && (id in s.kept || id !in issued)
    ensures AllStreamsOk(Put(s, id, st), issued + {id})
    ensures id in s.kept ==> AllStreamsOk(Put(s, id, st), issued)
  {
    assert Had(s, id) ==> id in issued;
    forall i | Had(Put(s, id, st), i) ensures StreamOk(Last(Put(s, id, st), i)) && (i == id || i in issued) {
      if i != id { assert Had(s, i) && Last(Put(s, id, st), i) == Last(s, i); }
    }
  }

  /** A stream that is new, or on which something arrived. */
  lemma PutCarries(s: Streams, id: StreamId, st: Stream, issued: set<StreamId>)
    requires AllStreamsOk(s, issued)
    requires if id in s.kept
             then st.sent == s.kept[id].sent && st.delivered == s.kept[id].delivered && Ended(s.kept[id], st)
             else id !in issued && st.sent == [] && st.delivered == []
    ensures StreamsCarried(s, Put(s, id, st), issued)
  {
    assert Had(s, id) ==> id in issued;
  }

  /** A stream that is dropped is remembered as it was. */
  lemma DropKeeps(s: Streams, id: StreamId, issued: set<StreamId>)
    requires AllStreamsOk(s, issued)
    ensures AllStreamsOk(Drop(s, id), issued) && SameStreams(s, Drop(s, id))
  {
    var s' := Drop(s, id);
    forall i ensures Had(s', i) <==> Had(s, i) {}
    forall i | Had(s, i) ensures Last(s', i) == Last(s, i) {}
    forall i | Had(s', i) ensures StreamOk(Last(s', i)) && i in issued { assert Had(s, i); }
  }

  lemma SameIsCarried(s: Streams, s': Streams, issued: set<StreamId>)
    requires SameStreams(s, s')
    ensures StreamsCarried(s, s', issued)
  {
    forall i | Had(s', i) ensures Had(s, i) && Last(s', i) == Last(s, i) { assert Had(s, i); }
  }

  lemma StreamDataKeeps(c: Core, ev: Event)
    requires CoreOk(c) && c.engine.session && EventOk(LedgerOf(c), ev) && ev.StreamData?
    ensures Kept(c, ev)
  {
    StreamDataCarries(c, ev);
  }

  lemma ArriveKeeps(s: Stream, data: Bytes, fin: bool)
    requires StreamOk(s) && (s.finReceived ==> data == [])
    ensures StreamOk(Arrive(s, data, fin)) && Ended(s, Arrive(s, data, fin))
  {
    assert s.delivered + (s.unread + data) == s.delivered + s.unread + data;
    assert s.received + [] == s.received;
  }

  lemma StreamGoneKeeps(c: Core, ev: Event)
    requires CoreOk(c) && c.engine.session && ev.StreamGone?
    ensures Kept(c, ev)
  {
    DropKeeps(StreamsOf(c), ev.id, c.engine.issued);
    assert StreamsOf(OnEvent(c, ev)) == Drop(StreamsOf(c), ev.id);
    SameIsCarried(StreamsOf(c), StreamsOf(OnEvent(c, ev)), c.engine.issued);
  }

  lemma ResponseEventKeeps(c: Core, ev: Event)
    requires CoreOk(c) && c.engine.session && EventOk(LedgerOf(c), ev) && ev.ResponseComplete?
    ensures Kept(c, ev)
  {
    assert OnEvent(c, ev).responses.Keys == c.responses.Keys + {ev.id};
  }

  lemma EventKeeps(c: Core, ev: Event)
    requires CoreOk(c) && c.engine.session && EventOk(LedgerOf(c), ev)
    ensures Kept(c, ev)
  {
    match ev
    case StreamData(_, _, _) => StreamDataKeeps(c, ev);
    case StreamGone(_) => StreamGoneKeeps(c, ev);
    case ResponseComplete(_, _, _) => ResponseEventKeeps(c, ev);
    case DatagramReceived(_) => DatagramEventKeeps(c, ev);
    case SessionReady => ReadyEventKeeps(c, ev);
    case SessionClosed(_, _) => ClosedEventKeeps(c, ev);
  }

  lemma CarriedOn(a: Core, b: Core, c: Core)
    requires CoreOk(a) && Carried(a, b) && Carried(b, c)
    ensures Carried(a, c)
  {}

  lemma {:induction false} DeliverKeeps(c: Core, events: seq<Event>)
    requires CoreOk(c) && EventsOk(LedgerOf(c), events) && (c.engine.session || events == [])
    ensures CoreOk(Deliver(c, events)) && SameButDelivered(c, Deliver(c, events)) && Carried(c, Deliver(c, events))
    decreases |events|
  {
    if events != [] {
      var c1 := OnEvent(c, events[0]);
      EventKeeps(c, events[0]);
      DeliverKeeps(c1, events[1..]);
      CarriedOn(c, c1, Deliver(c, events));
    }
  }

  lemma {:induction false} GoneEventsOk(l: Ledger, events: seq<Event>)
    requires forall i :: 0 <= i < |events| ==> events[i].StreamGone?
    ensures EventsOk(l, events)
    decreases |events|
  {
    if events != [] { GoneEventsOk(AfterEvent(l, events[0]), events[1..]); }
  }

  /** After an application call the only engine state that callbacks touched is which streams remain. */
  ghost predicate OnlyStreamsShrink(c: Core, c': Core)
  {
    && c' == c.(engine := c.engine.(streams := c'.engine.streams, incoming := c'.engine.incoming),
                past := c.past.(gone := c'.past.gone))
    && c'.engine.incoming <= c.engine.incoming && SameStreams(StreamsOf(c), StreamsOf(c'))
    && forall id :: id in c'.engine.streams ==> id in c.engine.streams && c'.engine.streams[id] == c.engine.streams[id]
  }

  ghost predicate SameStreams(s: Streams, s': Streams)
  {
    && (forall id :: Had(s, id) <==> Had(s', id))
    && forall id :: Had(s, id) ==> Last(s', id) == Last(s, id)
  }

  lemma {:induction false} DeliverGone(c: Core, events: seq<Event>)
    requires forall i :: 0 <= i < |events| ==> events[i].StreamGone?
    ensures OnlyStreamsShrink(c, Deliver(c, events))
    decreases |events|
  {
    if events != [] { DeliverGone(OnEvent(c, events[0]), events[1..]); }
  }

  lemma ApplyKeeps(c: Core, e: Effect)
    requires CoreOk(c) && StartEffectOk(c, e)
    requires (e.connected ==> c.engine.session) && (!c.engine.session ==> e.events == [])
    ensures CoreOk(Apply(c, e)) && Carried(c, Apply(c, e))
    ensures SameButDelivered(c.(engine := c.engine.(connected := e.connected, alarms := e.alarms),
                                queue := c.queue + e.packets,
                                past := c.past.(written := c.past.written + e.packets)), Apply(c, e))
  {
    var c1 := c.(engine := c.engine.(connected := e.connected, alarms := e.alarms),
                 queue := c.queue + e.packets,
                 past := c.past.(written := c.past.written + e.packets));
    assert c1.past.popped + c1.queue == c.past.popped + c.queue + e.packets;
    assert LedgerOf(c1) == LedgerOf(c);
    DeliverKeeps(c1, e.events);
  }

  lemma ApplyAppKeeps(c: Core, e: Effect)
    requires CoreOk(c) && AppEffectOk(c, e) && c.engine.session
    ensures CoreOk(Apply(c, e)) && IsConnected(Apply(c, e)) == IsConnected(c)
    ensures OnlyStreamsShrink(c.(engine := c.engine.(alarms := e.alarms), queue := c.queue + e.packets,
                                 past := c.past.(written := c.past.written + e.packets)), Apply(c, e))
  {
    GoneEventsOk(LedgerOf(c), e.events);
    ApplyKeeps(c, e);
    var c1 := c.(engine := c.engine.(connected := e.connected, alarms := e.alarms),
                 queue := c.queue + e.packets, past := c.past.(written := c.past.written + e.packets));
    assert c1.engine == c.engine.(alarms := e.alarms);
    DeliverGone(c1, e.events);
  }

  // ----- connection-level operations

  /** What none of receive, timeout and close changes. */
  predicate SameHistory(c: Core, c': Core)
  {
    && c'.engine.session == c.engine.session && c'.past.taken == c.past.taken
    && c'.past.requests == c.past.requests && c'.connectRequested == c.connectRequested
    && c'.past.collected == c.past.collected && c'.serverName == c.serverName
  }

  lemma ResetKeeps(c: Core)
    requires CoreOk(c)
    ensures CoreOk(ResetSession(c)) && LedgerOf(ResetSession(c)) == LedgerOf(c)
    ensures ResetSession(c).kind == c.kind && ResetSession(c).lastError == c.lastError
  {}

  /** The object once the library has been asked to start the handshake. */
  function Started(c: Core, e: Effect): Core
  {
    Apply(ResetSession(Clear(c)).(engine := c.engine.(session := true)), e)
  }

  /** What a start keeps, whether it succeeds or not: the invariant, the packets, the data; and before there
      is a session nothing was taken or asked for. */
  ghost predicate Restarted(c: Core, c': Core)
  {
    && CoreOk(c') && c'.kind == c.kind && Carried(c, c') && c'.past.popped == c.past.popped
    && c'.past.collected == c.past.collected
    && (!c.engine.session ==> c'.past.taken == [] && c'.past.requests == [] && !c'.connectRequested)
    && (c.engine.session ==> c'.engine.session)
  }

  lemma RestartedText(c: Core, c1: Core, c2: Core)
    requires Restarted(c, c1) && c2 == c1.(lastError := c2.lastError)
    ensures Restarted(c, c2)
  {
    ErrorTextIsFree(c1, c2);
  }

  lemma ResetRestarts(c: Core)
    requires CoreOk(c)
    ensures Restarted(c, Clear(c)) && Restarted(c, ResetSession(Clear(c)))
  {
    ErrorTextIsFree(c, Clear(c));
    ResetKeeps(Clear(c));
  }

  lemma StartedKeeps(c: Core, e: Effect)
    requires CoreOk(c) && StartEffectOk(c, e)
    ensures Restarted(c, Started(c, e)) && Started(c, e).engine.session && Started(c, e).lastError == ""
  {
    ErrorTextIsFree(c, Clear(c));
    ResetKeeps(Clear(c));
    var c1 := ResetSession(Clear(c));
    var c2 := c1.(engine := c1.engine.(session := true));
    assert CoreOk(c2) && LedgerOf(c2) == LedgerOf(c);
    ApplyKeeps(c2, e);
  }

  /** Start keeps the invariant, and succeeds only with a session and an empty last_error. */
  lemma StartKeeps(c: Core, initialized: bool, attempting: bool, e: Effect)
    requires CoreOk(c) && StartEffectOk(c, e)
    ensures var (c', st) := Start(c, initialized, attempting, e);
      && Restarted(c, c')
      && (st == OK || st == ERROR)
      && (st == OK <==> c'.lastError == "")
      && (st == OK && !c.engine.connected ==> c'.engine.session)
  {
    var (c', st) := Start(c, initialized, attempting, e);
    ResetRestarts(c);
    if !c.engine.connected && initialized {
      StartedKeeps(c, e);
      CloseTextNonEmpty();
      RestartedText(c, Started(c, e), c');
    } else if !c.engine.connected {
      RestartedText(c, ResetSession(Clear(c)), c');
    }
  }

  lemma CloseTextNonEmpty()
    ensures forall v :: CloseText(v) != ""
  {
    forall v ensures CloseText(v) != "" {
      assert |CloseText(v)| > 0;
    }
  }

  /** The text a CLOSED status leaves behind: the peer's close, else the call's generic text. */
  function ClosedText(c: Core, generic: string): string
  {
    if Watching(c) && c.visitor.closed then CloseText(c.visitor) else generic
  }

  /** The library's reaction to a packet, a timeout or a closing, before the text is chosen. */
  lemma ReactionKeeps(c: Core, e: Effect)
    requires CoreOk(c) && EffectOk(c, e)
    ensures var c1 := Apply(Clear(c), e);
      && CoreOk(c1) && c1.kind == c.kind && Carried(c, c1) && SameHistory(c, c1) && c1.past.popped == c.past.popped
      && c1.lastError == "" && c1.engine.alarms == e.alarms && c1.queue == c.queue + e.packets
  {
    assert LedgerOf(Clear(c)) == LedgerOf(c);
    ApplyKeeps(Clear(c), e);
  }

  /** The text for a connection found closed, when no text is there yet. */
  lemma TextIsChosen(c: Core, generic: string)
    requires CoreOk(c) && c.lastError == "" && generic != ""
    ensures var c' := SetErrorIfEmpty(PopulateClosed(c), generic);
      CoreOk(c') && c' == c.(lastError := ClosedText(c, generic)) && c'.lastError != ""
  {
    CloseTextNonEmpty();
    ErrorTextIsFree(c, SetErrorIfEmpty(PopulateClosed(c), generic));
  }

  /** The library has reacted: what both kinds of event make of it. */
  ghost predicate Reacted(c: Core, c': Core, generic: string)
  {
    && CoreOk(c') && c'.kind == c.kind && Carried(c, c') && SameHistory(c, c') && c'.past.popped == c.past.popped
    && (c'.engine.connected <==> c'.lastError == "")
    && (!c'.engine.connected ==> c'.lastError == ClosedText(c', generic))
  }

  lemma ReactionReported(c: Core, e: Effect, generic: string)
    requires CoreOk(c) && EffectOk(c, e) && generic != ""
    ensures var c1 := Apply(Clear(c), e);
      var c' := if c1.engine.connected then c1 else SetErrorIfEmpty(PopulateClosed(c1), generic);
      Reacted(c, c', generic) && c'.engine.alarms == e.alarms
  {
    ReactionKeeps(c, e);
    TextIsChosen(Apply(Clear(c), e), generic);
  }

  /** ReceivePacket and HandleTimeout: once a session exists neither fails; CLOSED exactly when the
      connection is gone; last_error is empty after OK and has its fixed precedence after CLOSED. */
  lemma ReceiveKeeps(c: Core, data: Bytes, e: Effect)
    requires CoreOk(c) && EffectOk(c, e)
    ensures var (c', st) := ReceivePacket(c, data, e);
      && CoreOk(c') && c'.kind == c.kind && Carried(c, c') && SameHistory(c, c') && c'.past.popped == c.past.popped
      && (c.engine.session || data == [] ==> st == OK || st == CLOSED)
      && (st == OK <==> c'.lastError == "")
      && (st == CLOSED ==> !c'.engine.connected
                           && c'.lastError == ClosedText(c', "connection closed while processing a packet"))
      && (st == OK && data != [] ==> c'.engine.connected)
      && (st == ERROR ==> c' == SetError(c, "handshake has not been started"))
      && (data == [] ==> c' == Clear(c))
  {
    if data != [] && c.engine.session {
      ReactionReported(c, e, "connection closed while processing a packet");
    } else {
      ErrorTextIsFree(c, ReceivePacket(c, data, e).0);
    }
  }

  lemma TimeoutKeeps(c: Core, e: Effect)
    requires CoreOk(c) && EffectOk(c, e)
    ensures var (c', st) := HandleTimeout(c, e);
      && Reacted(c, c', "connection closed while handling a timeout") && c'.engine.alarms == e.alarms
      && st == (if c'.engine.connected then OK else CLOSED)
  {
    ReactionReported(c, e, "connection closed while handling a timeout");
  }

  lemma CloseKeeps(c: Core, e: Effect)
    requires CoreOk(c) && EffectOk(c, e)
    ensures CoreOk(Close(c, e)) && Close(c, e).kind == c.kind && Close(c, e).lastError == ""
    ensures Carried(c, Close(c, e)) && SameHistory(c, Close(c, e)) && Close(c, e).past.popped == c.past.popped
    ensures Close(c, e).queue == c.queue + (if c.kind.Raw? && !c.engine.session then [] else e.packets)
  {
    ReactionKeeps(c, e);
  }

  /** NextSend takes the oldest packet and nothing else: last_error and the connection state are untouched. */
  lemma NextSendKeeps(c: Core, bufferLen: nat)
    requires CoreOk(c) && bufferLen >= MAX_OUTGOING_PACKET
    ensures var (c', st, packet) := NextSend(c, bufferLen);
      && CoreOk(c') && st != TOO_BIG
      && c' == c.(queue := c'.queue, past := c.past.(popped := c'.past.popped))
      && (st == WOULD_BLOCK <==> c.queue == [])
      && (st == OK ==> c.queue == [packet] + c'.queue && c'.past.popped == c.past.popped + [packet])
  {
    var (c', st, packet) := NextSend(c, bufferLen);
    if c.queue != [] {
      assert c.queue == [c.queue[0]] + c.queue[1..];
      assert c'.past.popped + c'.queue == c.past.popped + c.queue;
    }
  }

  /** Rounding: never early, and late by less than one millisecond. */
  lemma RoundUpBounds(alarm: int, now: int)
    ensures var due := now + RoundUpMs(alarm, now) * 1000;
      && (if alarm < now then now else alarm) <= due < (if alarm < now then now else alarm) + 1000
      && (alarm > now ==> RoundUpMs(alarm, now) >= 1)
  {}
}
