/** The asyncio client object of aio.py (and of its HTTP/3 and WebTransport
    copies) as a value: its own fields plus the part of the event loop that it
    uses (clock, timer handles, futures, the UDP transport). Each internal
    method is a function from the client before to the client after.
    `AsyncClient` is the imperative form, proved against these functions. */
module Driver {
  import opened Prelude
  import opened Engine
  import opened Glue
  import opened Binding

  /** What the client did to a transport, in order. */
  datatype TransportOp = SendTo(packet: Bytes) | CloseTransport

  /** Histories: `handed` lists the packets sent on it; `storedOpen` and `lost` say whether the client
      was open when it stored the transport, and when it stored another in its place. */
  datatype Transport = Transport(log: seq<TransportOp>, handed: seq<Bytes>, storedOpen: bool, lost: bool)

  /** A history: for which alarms the latest timer was set, and when. */
  datatype Armed = Armed(alarms: set<int>, at: int)

  datatype Future = Pending | Resolved | Cancelled

  /** Histories: `drawnBefore` lists the packets fetched from cores since replaced, `handedBefore` those
      sent on transports since replaced. */
  datatype Client = Client(
    core: Option<Core>,
    transport: Option<Transport>,
    timer: Option<nat>,
    waiters: seq<nat>,
    closed: bool,
    closeReason: string,
    wasConnected: bool,
    // the event loop
    now: int,
    handles: map<nat, int>,        // live timer handles and when they are due
    nextHandle: nat,
    futures: map<nat, Future>,
    nextFuture: nat,
    armed: Armed,
    drawnBefore: seq<Bytes>,
    handedBefore: seq<Bytes>)

  function NewClient(now: int): Client
  {
    Client(None, None, None, [], false, "", false, now, map[], 0, map[], 0, Armed({}, now), [], [])
  }

  function Sends(packets: seq<Bytes>): seq<TransportOp>
  {
    seq(|packets|, i requires 0 <= i < |packets| => SendTo(packets[i]))
  }

  function Drained(c: Core): Core
  {
    c.(queue := [], past := c.past.(popped := c.past.popped + c.queue))
  }

  /** _drain_send: empties the send queue into the transport, if there is one. */
  function DrainSend(d: Client): Client
    requires d.core.Some?
  {
    if d.transport.None? then d
    else
      var t := d.transport.value;
      d.(core := Some(Drained(d.core.value)),
         transport := Some(t.(log := t.log + Sends(d.core.value.queue), handed := t.handed + d.core.value.queue)))
  }

  /** _wake_waiters: resolves every waiter future that is not done. */
  function WakeWaiters(d: Client): Client
  {
    d.(futures := map f | f in d.futures ::
         if f in d.waiters && d.futures[f].Pending? then Resolved else d.futures[f])
  }

  function CancelTimer(d: Client): Client
  {
    if d.timer.None? then d else d.(handles := d.handles - {d.timer.value}, timer := None)
  }

  /** _teardown: the one-way exit. */
  function Teardown(d: Client, reason: string): Client
  {
    if d.closed then d
    else
      var d1 := CancelTimer(d.(closed := true, closeReason := reason));
      var d2 := if d1.transport.None? then d1
                else
                  var t := d1.transport.value;
                  d1.(transport := Some(t.(log := t.log + [CloseTransport])));
      WakeWaiters(d2)
  }

  /** loop.call_later. */
  function CallLater(d: Client, delayMs: nat): Client
  {
    d.(handles := d.handles[d.nextHandle := d.now + delayMs * 1000],
       timer := Some(d.nextHandle), nextHandle := d.nextHandle + 1,
       armed := Armed(if d.core.Some? then d.core.value.engine.alarms else {}, d.now))
  }

  /** _reschedule_timer. */
  function RescheduleTimer(d: Client): Client
    requires d.core.Some?
  {
    var d1 := CancelTimer(d);
    var (c, delay) := NextTimeoutMs(d1.core.value, d1.now);
    var d2 := d1.(core := Some(c));
    if delay.None? then d2 else CallLater(d2, delay.value)
  }

  /** _process. */
  function Process(d: Client): Client
  {
    if d.core.None? || d.closed then d
    else
      var d1 := DrainSend(d);
      var c := d1.core.value;
      if IsConnected(c) then WakeWaiters(RescheduleTimer(d1.(wasConnected := true)))
      else if d1.wasConnected
      then Teardown(d1, if c.lastError != "" then c.lastError else "connection closed")
      else if c.lastError != "" then Teardown(d1, c.lastError)
      else WakeWaiters(RescheduleTimer(d1))
  }

  /** _on_receive. An exception leaves the callback before _process. */
  function OnReceive(d: Client, data: Bytes, e: Effect): Client
  {
    if d.core.None? || d.closed then d
    else
      var (c, r) := PyReceivePacket(d.core.value, data, e);
      var d1 := d.(core := Some(c));
      if r.Raise? then d1 else Process(d1)
  }

  /** _on_timeout, run by the handle that fired. */
  function OnTimeout(d: Client, handle: nat, e: Effect): Client
  {
    var d0 := d.(handles := d.handles - {handle});
    if d0.core.None? || d0.closed then d0
    else
      var (c, r) := PyHandleTimeout(d0.core.value, e);
      var d1 := d0.(core := Some(c));
      if r.Raise? then d1 else Process(d1)
  }

  /** _on_connection_lost; None stands for an orderly loss. */
  function OnConnectionLost(d: Client, cause: Option<string>): Client
  {
    Teardown(d, if cause.None? then "connection lost" else cause.value)
  }

  /** The reason that close() gives. */
  function GivenText(d: Client): string { if d.closeReason != "" then d.closeReason else "closed by application" }

  /** close(). */
  function CloseClient(d: Client, e: Effect): Client
  {
    var d1 := if d.core.Some? && !d.closed
              then DrainSend(d.(core := Some(Close(d.core.value, e))))
              else d;
    Teardown(d1, GivenText(d1))
  }

  /** The text of the ConnectionError that a wait on a closed client raises. */
  function GivenReason(d: Client): string { if d.closeReason != "" then d.closeReason else "connection closed" }

  function Popped(d: Client): seq<Bytes> { if d.core.Some? then d.core.value.past.popped else [] }

  function Handed(d: Client): seq<Bytes> { if d.transport.Some? then d.transport.value.handed else [] }

  /** connect() stores a new core, whatever core there was. */
  function Renew(d: Client, c: Core): Client
  {
    d.(core := Some(c), drawnBefore := d.drawnBefore + Popped(d))
  }

  /** connect() stores the transport of the new endpoint, whatever transport there was. */
  function Attach(d: Client): Client
  {
    d.(transport := Some(Transport([], [], !d.closed, false)), handedBefore := d.handedBefore + Handed(d))
  }

  /** connect() from the stored transport to its first wait; `started` is false when core.start() raised. */
  function Begun(d: Client, started: bool): Client
  {
    if started then Process(Attach(d)) else Teardown(Attach(d), "connect failed")
  }
}
