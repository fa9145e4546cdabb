/** The part of google/quiche that the glue can see, as a contract.

    The library itself is not modelled. Every call into it is answered by an
    `Effect` chosen by the environment: the packets it hands to the packet
    writer, the callbacks it makes, the alarms pending afterwards and whether
    the connection is still connected. The predicates below say which answers
    the library may give. Times are microseconds of one clock. */
module Engine {
  import opened Prelude

  type StreamId = nat

  /** Stream ids carry their direction (section 2.1 of RFC 9000). */
  predicate IsUnidirectional(id: StreamId) { id % 4 >= 2 }

  /** Largest packet the writer allows (GetMaxPacketSize of the packet writer). */
  const MAX_OUTGOING_PACKET := 1452

  /** Clock readings and deadlines stay this far below 2^63 - 1 microseconds. */
  const TIME_LIMIT: int := 0x7FFF_FFFF_FFFF_FFFF - 999

  datatype Response = Response(id: StreamId, status: int, headers: seq<Header>, body: Bytes)

  datatype Event =
    | SessionReady
    | SessionClosed(code: nat, message: string)
    | DatagramReceived(data: Bytes)
    | StreamData(id: StreamId, data: Bytes, fin: bool)
    | StreamGone(id: StreamId)
    | ResponseComplete(id: StreamId, headers: seq<Header>, body: Bytes)

  datatype Effect = Effect(packets: seq<Bytes>, events: seq<Event>, alarms: set<int>, connected: bool)

  /** What one accepted write puts on a stream. */
  datatype Payload = Payload(data: Bytes, fin: bool)

  /** A stream as the library keeps it. `received`, `delivered` and `sent` are
      histories: every byte that arrived, every byte that was read, and the payloads
      accepted for sending; the outbound bytes are their concatenation. */
  datatype Stream = Stream(
    unread: Bytes, finReceived: bool, received: Bytes, delivered: Bytes, sent: seq<Payload>)

  const NEW_STREAM := Stream([], false, [], [], [])

  predicate StreamOk(s: Stream) { s.received == s.delivered + s.unread }

  function Arrive(s: Stream, data: Bytes, fin: bool): Stream
  {
    s.(unread := s.unread + data, received := s.received + data, finReceived := s.finReceived || fin)
  }

  datatype PeekResult = PeekResult(data: Bytes, finNext: bool)

  predicate HasData(p: PeekResult) { p.data != [] || p.finNext }

  /** A peek shows a first contiguous region, never empty while bytes are unread. */
  predicate RegionOk(s: Stream, region: nat)
  {
    region <= |s.unread| && (s.unread != [] ==> region > 0)
  }

  function Peek(s: Stream, region: nat): PeekResult
    requires RegionOk(s, region)
  {
    PeekResult(s.unread[..region], s.finReceived && region == |s.unread|)
  }

  function Min(a: nat, b: nat): nat { if a < b then a else b }

  /** Read(span of n bytes): the stream afterwards, the bytes copied, and whether FIN was reached. */
  function ReadUpTo(s: Stream, n: nat): (Stream, Bytes, bool)
  {
    var k := Min(n, |s.unread|);
    (s.(unread := s.unread[k..], delivered := s.delivered + s.unread[..k]),
     s.unread[..k],
     s.finReceived && k == |s.unread|)
  }

  /** SkipBytes(0) consumes nothing and reports whether the stream has ended. */
  function SkipNothing(s: Stream): bool { s.finReceived && s.unread == [] }

  datatype WriteStatus = Accepted | Unavailable | Refused(message: string)

  datatype DatagramStatus =
    | Success
    | Blocked
    | TooBig(message: string)
    | InternalError(message: string)

  /** Answers the library gives to the questions asked by one application call. */
  datatype Answer = Answer(
    canWrite: bool,             // CanWrite
    write: WriteStatus,         // Writev
    stream: Option<StreamId>,   // CanOpenNext... together with Open..., or Accept...
    region: nat,                // length of the region that a peek shows
    datagram: DatagramStatus,   // SendOrQueueDatagram
    settings: bool,             // settings_received
    supported: bool,            // SupportsWebTransport
    associated: bool)           // web_transport() is non-null after the CONNECT

  predicate TimesOk(alarms: set<int>) { forall a :: a in alarms ==> 0 <= a <= TIME_LIMIT }

  predicate PacketsOk(packets: seq<Bytes>)
  {
    forall i :: 0 <= i < |packets| ==> |packets[i]| <= MAX_OUTGOING_PACKET
  }

  /** GetNextUpcomingAlarm: the least pending deadline. */
  ghost predicate IsEarliest(alarms: set<int>, a: int)
  {
    a in alarms && forall b :: b in alarms ==> a <= b
  }

  lemma {:induction false} EarliestExists(alarms: set<int>)
    requires alarms != {}
    ensures exists a :: IsEarliest(alarms, a)
  {
    assert (forall x :: x !in alarms) ==> alarms == {};
    var x: int :| x in alarms;
    var rest := alarms - {x};
    assert alarms == rest + {x};
    if rest == {} {
      assert IsEarliest(alarms, x);
    } else {
      EarliestExists(rest);
      var m :| IsEarliest(rest, m);
      assert IsEarliest(alarms, if m < x then m else x);
    }
  }

  function Earliest(alarms: set<int>): (a: int)
    requires alarms != {}
    ensures IsEarliest(alarms, a)
  {
    EarliestExists(alarms);
    var a :| a in alarms && forall b :: b in alarms ==> a <= b;
    a
  }
}
