# A verified model of the sans-I/O QUIC bindings and their asyncio drivers

The repository binds google/quiche to Python in two layers of its own. The *glue objects* (raw QUIC,
HTTP/3, WebTransport) wrap a library client that does no I/O: packets go into a send queue, callbacks set
flags and fill queues, each call answers with a status. The *asyncio clients* drive one glue object with one
UDP transport, one timer and a list of waiting coroutines. This project models both layers and proves, over
every interleaving, what their users rely on.

## How it is built

| layer | values and functions | imperative form, proved against them | invariants |
|---|---|---|---|
| the library, as a contract | `Engine` | | `GlueInvariant` (allowed answers) |
| glue objects | `Glue` | `GlueObject.GlueClient` | `GlueInvariant`, `LastError`, `DatagramFifo`, `Reassembly`, `Headers` |
| Python bindings | `Binding` | `PyObject` | `AttemptFacts`, `Outcomes` |
| asyncio client | `Driver` | `AsyncObject.AsyncClient` | `DriverFacts`, `DriverEvents` |
| coroutines and event loop | `Machine` | `Passes` joins the two | `Waiting`, `Steps`, `Records`, `Sessions`, `Transports`, `Finality`, `Deadlines`, `Blame`, `Reasons`, `Flags` |
| results over whole runs | | | `Theorems`, `Leaks` |

* The library is not modelled. Each call into it is answered by an `Effect` (packets written, callbacks made,
  pending alarms, still connected or not) and an `Answer`, both chosen freely within `EffectOk`, `AppEffectOk`,
  `StartEffectOk`, `TimeoutEffectOk` and `AttemptOk`: stream ids are not reused, no bytes follow FIN, a
  response completes once, connection and session state change only inside start, receive, timeout and
  close, a refused or unavailable write has no effect, alarms due are consumed when the timeout is handled,
  an accept returns a stream that the peer opened, of the direction asked for, that was not accepted before.
* The three glue objects are near copies, and so are the three asyncio clients; `kind` selects the branches in
  which they differ.
* A step of `Machine` runs from one `await` to the next. The environment chooses the order of tasks, packets,
  timer firings, timeouts, cancellations, `close()`, loss of the transport, the clock, and every answer of the
  library. `connect()` may be called any number of times, in any state of the client, also while another call
  of it is under way: each call makes a core of its own, the client drives the latest, and a task keeps asking
  the one it took hold of. A packet or a loss may come through any transport, also one that was replaced: its
  protocol object still calls the client. `Theorems.Reachable` means: reached by some legal run from a fresh client.
* Streams that the library drops are remembered as they were (`gone`), and so is what each response consisted of
  (`completed`), both inside the history `past`.
* Fields named `past`, `log`, `storedOpen`, `lost`, `handed`, `replaced`, `starters`, `armed`, `drawnBefore`,
  `handedBefore`, `triedAt`, `grants` and `events` are histories; nothing the program does depends on them.

## Four promises the code does not keep

* *Every transport a client stores is closed with it.* It fails in two ways. A transport that arrives after
  `close()` (the call came while the UDP endpoint was being created) is stored and never closed:
  `Leaks.LateEndpointLeaks` in general, `Leaks.LateEndpointRuns` on a run. A transport that is replaced by that
  of a second `connect()` is never closed either: `Leaks.ReplacedTransportLeaks` in general,
  `Leaks.ReconnectLeaks` on a run. `Theorems.TransportClosedIff` is the exact condition, for every transport
  ever stored: closed if and only if the client is closed, was open when it stored the transport, and had not
  stored another in its place while still open.
* *The cached connection flag of an open client is what the core says.* `connect()` on a connected client
  replaces the core and leaves the flag: `Leaks.ReconnectRuns` is such a run, `Theorems.OnlyReconnectBreaksTheFlag`
  says that no other step does it, and `Theorems.CachedFlagAgreesIff` is the exact condition: they agree unless
  the client was connected and its present core was not yet asked to start. What comes of it:
  `Theorems.SecondHandshakeCloses`.
* *A handshake that starts well is never taken for a failure.* When calls of `connect()` overlap, the driver looks
  at the latest core for a text, whichever core was started: `Leaks.MistakenRuns` is such a run and
  `Theorems.StartMistakenIff` the exact condition.
* *Receiving a datagram into a short buffer loses nothing.* It holds for the raw client. The WebTransport
  client takes the datagram before it checks the buffer; `DatagramFifo.WtLosesADatagram` is an instance and
  `DatagramFifo.WtFifo` the exact condition over all schedules. The binding always peeks first, so
  `receive_datagram()` itself is safe in both (`DatagramFifo.PeekThenReceive`, `Theorems.DatagramsArriveOnce`).

## Model

| member | source | states |
|---|---|---|
| Theorems.NoLostWakeup | src/quiche/aio.py:317-346 | In every reachable state of an open client, a parked task becomes runnable as soon as the core has processed an event since the task last asked, and as soon as what it waits for is available |
| Theorems.WaitersAreExact | src/quiche/aio.py:338-346 | The waiter list has no duplicates, is exactly the set of futures tasks are awaiting, and is empty when nobody waits |
| Theorems.WriteExactlyOnce | src/quiche/aio.py:59-67 | A write that returned was accepted exactly once, with its own payload and FIN flag; a write that ended in any exception was never accepted |
| Theorems.StreamsCarryTheRecord | src/quiche/aio.py:49-67 | On every core each stream, kept by the library or dropped by now, carries the accepted payloads in acceptance order and nothing else; what reads returned followed by what is (or was left) unread is what arrived; every stream that was written or read is among them; datagrams taken are those returned |
| Theorems.FinMeansEverything | src/quiche/aio.py:49-57 | When a read returned FIN, everything its stream ever received had been read at that point of the record, and no later read returned a further byte, also if the library dropped the stream in that very call |
| Theorems.AcceptedOnce | src/quiche/aio.py:217-228 | No two accepts on one core were ever given the same stream |
| Theorems.DatagramsArriveOnce | src/quiche/aio.py:175-182 | On every core that receives datagrams, those that arrived are those returned by receive_datagram() followed by those queued, in order, in both clients |
| Theorems.CachedFlagAgreesIff | src/quiche/aio.py:257-279 | "An open client's cached flag is what the core says" is false; in every reachable open state it holds if and only if the client is not one that was connected and whose present core was never asked to start |
| Theorems.OnlyReconnectBreaksTheFlag | src/quiche/aio.py:128-135 | Of all steps of an open client whose flag agrees with its core, exactly those break the agreement in which connect() makes a new core although the client is connected |
| Theorems.SecondHandshakeCloses | src/quiche/aio.py:143-146 | A second connect() on a connected client is taken for a lost connection: its client is torn down unless the new core is connected as soon as it was started |
| Theorems.StartMistakenIff | src/quiche/aio.py:143-146 | "A start that succeeds is never taken for a failure" is false when calls of connect() overlap; on a client that was never connected a successful start closes it if and only if the started core is not the present one and a text stands on the present one, and that text is then the reason |
| Flags.StepLooks | src/quiche/aio.py:257-279 | Every step but the making of a new core raises the cached flag only for a core that is connected, and never takes back a started handshake |
| Theorems.OneLiveTimer | src/quiche/aio.py:281-292 | At most one timer handle is live, it is the one stored, and a closed client has none |
| Theorems.TimersFireForAReason | src/quiche/aio.py:281-298 | Whenever a timer fires in any run, the client is open and the earliest alarm it was armed for is due; if the alarms are still those, that alarm is consumed; the next timer is at least a millisecond away: no spinning |
| Theorems.PacketsAreConserved | src/quiche/aio.py:245-255 | However often core and transport were replaced: the packets handed to all transports are those fetched from all cores, in order; fetched followed by queued is what the library wrote to each core; each transport saw what was handed to it and then at most one closing |
| Theorems.TeardownIsFinal | src/quiche/aio.py:305-315 | Over every continuation of every run a closed client stays closed with its first reason, no timer and unchanged transports; a transport that turns up later sees nothing |
| Theorems.ReasonHasASource | src/quiche/aio.py:305-315 | The reason of a closed client was given by the one step that closed it: for a packet or a timer the text of that event, for close() and a loss their own; for a turn of a task, a start or a signal "connect failed", "connection closed", or the text that stood on the present core, whichever call left it there |
| Theorems.OutcomesAreJustified | src/quiche/aio.py:317-343 | In every reachable state: ValueError only for arguments that no state accepts, or a datagram; KeyError only from a stream; ConnectionError only when closed, or on the raw client; TimeoutError only with a timeout; OSError only from set-up; and a call that returned had nothing wrong with its arguments |
| Theorems.TeardownReleases | src/quiche/aio.py:300-315 | After teardown every parked task can run, and each resumption ends one for good: the parked tasks count down with the resumptions |
| Theorems.EachRequestItsOwnReply | src/quiche/aio_http3.py:83-105 | A request that returned got the response to the stream of its own single submit, with the headers and body that completed there and the status they give; no two requests on one core share a stream or a response |
| Theorems.RequestsAreTheSubmits | src/quiche/aio_http3.py:94-98 | Every HTTP/3 core has sent exactly the requests of the submits it accepted, each with its caller's headers, body and FIN, in order of acceptance |
| Theorems.ResponsesPartition | src/bindings/quiche_glue_http3.cc:44-78 | Completed responses are the disjoint union of those taken and those stored, each stored under its own stream with what completed there |
| Theorems.ConnectIsSentOnce | src/quiche/aio_wt.py:126-141 | Every WebTransport core has sent at most one CONNECT, with the right pseudo-headers for the path of the connect() that made it, and exactly one if that connect() returned |
| Theorems.EveryCoreHasItsConnect | src/quiche/aio.py:128-135 | Every core was made by one call of connect(), and no two calls share one |
| Theorems.SessionIsWhole | src/bindings/quiche_glue_wt.cc:454-463 | On every core of every reachable state the connect flag, the session object and the visitor are there together or not at all, and then the core is a started WebTransport one that has sent its one CONNECT |
| Theorems.ConnectReturnsReady | src/quiche/aio_wt.py:138-138 | The turn in which a WebTransport connect() returns is its third wait and sees the session ready |
| Theorems.TimeoutIsHonest | src/quiche/aio.py:332-343 | TimeoutError implies at least one failed attempt and a clock at or past start plus timeout |
| Theorems.ParkedWaitsHaveAWakeup | src/quiche/aio.py:323-341 | A parked wait with a timeout has its own wake-up exactly at its deadline, however many wake-ups were in vain |
| Theorems.StagedDeadlines | src/quiche/aio_http3.py:94-105 | With prompt resumption every call that began to wait ends within one allowance (its timeout, or nothing if negative) per wait: T, 2T for a request, 3T for WebTransport connect(); one that never began failed in set-up |
| Leaks.CloseMakesItLate | src/quiche/aio.py:137-149 | close() while connect() awaits the UDP endpoint closes the client and leaves that call waiting |
| Leaks.LateEndpointRuns | src/quiche/aio.py:137-149 | A concrete legal run ends with a closed client holding an open transport |
| Leaks.ReconnectRuns | src/quiche/aio.py:128-141 | A concrete legal run, connect() returning and called again, ends with an open client whose flag contradicts its core |
| Leaks.MistakenRuns | src/quiche/aio.py:143-146 | A concrete legal run of two overlapping connect() calls: the first one's handshake succeeds and the client is torn down for a text that a stray packet left on the second one's core |
| Leaks.LateEndpointLeaks | src/quiche/aio.py:305-307 | In any run, an endpoint that arrives at a closed client is stored, and no continuation ever closes its transport |
| Leaks.ReplacedTransportLeaks | src/quiche/aio.py:141-141 | In any run, an endpoint that arrives at an open client with a transport replaces it, and no continuation ever closes the one replaced |
| Leaks.ReconnectLeaks | src/quiche/aio.py:141-141 | The concrete run continued: the first transport stays open whatever follows |
| Theorems.TransportClosedIff | src/quiche/aio.py:305-314 | In every reachable state, each transport ever stored was closed if and only if the client is closed, was open when it stored it, and did not store another in its place while open |
| Theorems.TransportsFreeze | src/quiche/aio.py:305-314 | A replaced transport, and every transport of a closed client, stays exactly as it is over every continuation |
| Steps.StepKeepsBase | src/quiche/aio.py:235-346 | Every step of every task, callback and event keeps the client invariant, the agreement with the core, the waiter list, the sleeping tasks' justification and the shape of every task |
| Steps.RunKeepsBase | src/quiche/aio.py:235-346 | The same over whole runs |
| Records.RunKeepsRecord | src/quiche/aio.py:317-331 | Over whole runs the record of accepted attempts is in one-to-one correspondence with completed waits, is true of each task, and accounts for all stream data (dropped streams included), FINs, accepted streams, requests, replies and datagrams of every core |
| Sessions.RunKeepsOne | src/quiche/aio_wt.py:126-141 | Over whole runs the CONNECT requests sent by each core match the progress of the connect() call that made it |
| Transports.RunKeepsStored | src/quiche/aio.py:137-149 | Over whole runs every replaced transport is in the state it was left in, and what was handed to transports is what was fetched from cores |
| Blame.RunKeepsBlame | src/quiche/aio.py:317-343 | Over whole runs each finished call's exception has a cause of its class, and arguments were looked at before a call got any further |
| Reasons.RunCloses | src/quiche/aio.py:305-315 | A run that closes the client does so in one step, with a reason that fits that step, kept to the end |
| Finality.ClosedTurn | src/quiche/aio.py:325-327 | On a closed client a wait ends with ConnectionError and the frozen reason, without touching the core |
| Finality.ClosedResume | src/quiche/aio.py:340-346 | The next resumption of a task parked on a closed client is its last: ConnectionError, or its own timeout or cancellation |
| Finality.RunDrains | src/quiche/aio.py:300-315 | The number of parked tasks of a closed client plus the resumptions made is constant |
| Deadlines.TurnTurns | src/quiche/aio.py:317-346 | A turn ends in one of four ways, each with the stage, start time and wake-up it must have |
| Deadlines.RunKeepsTime | src/quiche/aio.py:323-341 | In prompt runs each task stays within its budget of one allowance per stage |
| Waiting.ParkKeeps | src/quiche/aio.py:338-341 | Parking after a fruitless attempt joins the waiter list with a fresh future and sleeps legitimately |
| Waiting.UnparkKeeps | src/quiche/aio.py:344-346 | Leaving the await removes exactly the task's own future |
| DriverEvents.ReceiveDetects | src/quiche/aio.py:235-239 | A packet on a started client never raises; a never-connected client is torn down in that callback exactly when the core reported CLOSED, with the text it recorded; a connected one exactly when it no longer is |
| DriverEvents.TimeoutDetects | src/quiche/aio.py:294-298 | The same for the timer callback |
| DriverEvents.ReceiveBeforeStart | src/quiche/aio.py:235-239 | A packet that overtakes start() raises in the callback and leaves the client as it was, but for the recorded text |
| DriverEvents.BegunKeeps | src/quiche/aio.py:141-149 | After connect() stored its transport and tried to start, whichever way that went, all invariants hold and every waiter of a client that was open is awake |
| DriverEvents.BegunVerdict | src/quiche/aio.py:143-149 | A start that raised closes an open client with "connect failed"; a start that succeeded closes it exactly on the verdict of `_process`; a closed client keeps its reason |
| DriverEvents.StartNotMistaken | src/quiche/aio.py:143-149 | A start that raises leaves a text on its core; one that succeeds leaves none, so a client that was never connected and whose present core it is, is not torn down by it (Theorems.StartMistakenIff has the other case) |
| DriverEvents.TimerMakesProgress | src/quiche/aio.py:281-298 | A timer that fires when due: the earliest alarm it was set for is due, and, the alarms being the same, gone afterwards; the next timer is at least a millisecond away |
| DriverEvents.CloseSendsEverything | src/quiche/aio.py:194-200 | close() on an open client with a transport hands over everything queued, including what core.close() wrote |
| DriverEvents.LastPackets | src/quiche/aio.py:194-200 | The transport log after close() ends with those packets and then the closing |
| DriverFacts.ProcessKeeps | src/quiche/aio.py:257-279 | `_process` tears down for exactly the stated verdict or leaves an agreeing client with an accurate timer; every waiter is awake either way |
| DriverFacts.TeardownKeeps | src/quiche/aio.py:305-315 | Teardown closes once, keeps the first reason, leaves core and flag alone and wakes every waiter |
| DriverFacts.RescheduleKeeps | src/quiche/aio.py:281-292 | Afterwards a timer is live if and only if an alarm is pending, due no earlier than the alarm and less than a millisecond after max(alarm, now) |
| AsyncObject.AsyncClient.constructor | src/quiche/aio.py:90-115 | A fresh client owns nothing and waits for nothing |
| AsyncObject.AsyncClient.DrainSend | src/quiche/aio.py:245-255 | The loop terminates, empties the queue into the transport in order, never meets a too-small buffer, and keeps last_error |
| AsyncObject.AsyncClient.WakeWaiters | src/quiche/aio.py:300-303 | Exactly the pending futures of the list are resolved; set_result is never applied to a done or cancelled one |
| AsyncObject.AsyncClient.Teardown | src/quiche/aio.py:305-315 | Updates exactly the state of `Driver.Teardown`, about which DriverFacts.TeardownKeeps is proved |
| AsyncObject.AsyncClient.RescheduleTimer | src/quiche/aio.py:281-292 | Updates exactly the state of `Driver.RescheduleTimer` (DriverFacts.RescheduleKeeps) |
| AsyncObject.AsyncClient.Process | src/quiche/aio.py:257-279 | Updates exactly the state of `Driver.Process` (DriverFacts.ProcessKeeps) |
| AsyncObject.AsyncClient.OnReceive | src/quiche/aio.py:235-239 | Refines `Driver.OnReceive`; raises exactly when a non-empty packet overtakes start() |
| AsyncObject.AsyncClient.OnTimeout | src/quiche/aio.py:294-298 | Refines `Driver.OnTimeout` (DriverEvents.TimeoutDetects) |
| AsyncObject.AsyncClient.OnConnectionLost | src/quiche/aio.py:241-243 | Refines `Driver.OnConnectionLost` |
| AsyncObject.AsyncClient.Close | src/quiche/aio.py:194-200 | Refines `Driver.CloseClient` (DriverEvents.CloseSendsEverything) |
| AsyncObject.AsyncClient.MakeCore | src/quiche/aio.py:128-135 | A new core takes the place of whatever core there was (DriverEvents.BegunKeeps, Theorems.OnlyReconnectBreaksTheFlag) |
| AsyncObject.AsyncClient.BeginConnect | src/quiche/aio.py:141-149 | Stores the transport, starts the core of this call, which need not be the client's present one, then refines `Driver.Begun` |
| AsyncObject.AsyncClient.Wait | src/quiche/aio.py:325-341 | One trip through the loop of `_wait` on the core the caller holds: give up, return, raise, or park on a fresh future with the time that remains |
| AsyncObject.AsyncClient.Leave | src/quiche/aio.py:344-346 | Removes the first occurrence of the future from the waiter list, if any |
| Passes.TurnIsAPass | src/quiche/aio.py:317-346 | A turn of the machine is one such trip followed by what the calling method does with its outcome: the next stage or the returned value, the exception, or the sleep, with the state of client and task in each case |
| PyObject.ReceivePacket | src/bindings/module.cpp:117-127 | CLOSED is swallowed, other failures raise with the recorded text, over-long input is refused before the core is called |
| PyObject.NextSend | src/bindings/module.cpp:129-140 | One packet or None, through a buffer of the binding's own |
| PyObject.NextTimeout | src/bindings/module.cpp:142-152 | None exactly when no alarm is pending |
| PyObject.HandleTimeout | src/bindings/module.cpp:154-160 | CLOSED is swallowed |
| PyObject.StartCore | src/bindings/module.cpp:112-115 | Any status but OK raises |
| PyObject.ReceiveDatagram | src/bindings/module.cpp:203-220 | Peek, allocate, receive: the head datagram or None |
| PyObject.ReadStream | src/bindings/module.cpp:284-304 | Size limits first, then the bytes read and FIN, or None |
| PyObject.WriteStream | src/bindings/module.cpp:306-316 | True when accepted, False when blocked, otherwise an exception by status |
| PyObject.SubmitRequest | src/bindings/module.cpp:477-515 | The header loop copies every pair in order or refuses an over-long one |
| PyObject.ConnectSession | src/bindings/module.cpp:682-717 | The same for CONNECT |
| PyObject.Try | src/quiche/aio.py:328-330 | One call of any operation's attempt closure refines `Binding.Attempt` (AttemptFacts.AttemptMoves) |
| PyObject.DatagramOrStream | src/bindings/module.cpp:191-201 | The open, accept and datagram attempts refine `Binding.Attempt` (Outcomes.OpenAnswers, DatagramFifo.PeekThenReceive) |
| AttemptFacts.AttemptMoves | src/bindings/module.cpp:284-316 | Whatever the library answers, a failed attempt moves no data and a successful one exactly its own, also on a stream that the library drops in that call; no attempt makes another operation ready |
| AttemptFacts.RipeDecides | src/bindings/quiche_glue.cc:491-530 | An attempt at an operation whose outcome the state decides returns something when that something is there |
| AttemptFacts.ConnectOnce | src/bindings/quiche_glue_wt.cc:387-464 | WOULD_BLOCK only before a request stream exists; one CONNECT per successful call; none once the session is associated |
| Outcomes.ReadAnswers | src/bindings/module.cpp:284-304 | The same for read; it waits exactly while there is neither an unread byte nor a FIN |
| Outcomes.OpenAnswers | src/bindings/module.cpp:258-267 | The same for opening a stream; the stream returned is new, empty and was never issued before |
| Outcomes.SubmitAnswers | src/bindings/module.cpp:477-515 | The same for submit_request, with the input that is refused |
| Outcomes.ConnectAnswers | src/bindings/module.cpp:682-717 | The same for connect_session |
| Headers.BlockHoldsTheLast | src/bindings/quiche_glue_http3.cc:325-340 | A header list is refused exactly when some name is empty; otherwise the block has exactly the names of the list, each with its last value |
| Headers.ConnectCarriesHeaders | src/bindings/quiche_glue_wt.cc:430-451 | A CONNECT carries every ordinary header of the caller with its last value |
| AttemptFacts.ConnectBlockIsConnect | src/bindings/quiche_glue_wt.cc:447-451 | Whatever headers the caller adds, the pseudo-headers of an extended CONNECT (section 4 of RFC 8441) have their required values |
| LastError.ErrorTextFits | src/bindings/quiche_glue.cc:702-778 | For every call that resets last_error, Close and NextTimeoutMs included: OK and WOULD_BLOCK leave it empty; CLOSED leaves the peer's message, else its code, else the call's generic text, never an empty text |
| LastError.EarlierTextIsForgotten | src/bindings/quiche_glue.cc:774-778 | Nothing an earlier call recorded survives into a later call or changes what it does |
| LastError.NextSendKeepsText | src/bindings/quiche_glue.cc:334-356 | Fetching a packet that fits keeps the text of the last event |
| DatagramFifo.RawFifo | src/bindings/quiche_glue.cc:630-670 | For any interleaving of arrivals, peeks and receives with any buffers, taken followed by queued is everything that arrived |
| DatagramFifo.WtFifo | src/bindings/quiche_glue_wt.cc:658-689 | The WebTransport client conserves datagrams if and only if no receive was offered a buffer smaller than the datagram then at the head |
| DatagramFifo.WtLosesADatagram | src/bindings/quiche_glue_wt.cc:674-679 | A client started, given a session by CONNECT and sent one datagram, loses it to one receive with a short buffer |
| DatagramFifo.OverflowDiffers | src/bindings/quiche_glue_wt.cc:674-679 | The same short buffer: TOO_BIG from both, the raw client keeps the head, the WebTransport client does not |
| DatagramFifo.PeekThenReceive | src/bindings/module.cpp:203-220 | A receive of the peeked size succeeds with the peeked head even if datagrams arrive in between |
| DatagramFifo.ClientsPlayAlike | src/bindings/quiche_glue_wt.cc:639-689 | Under any schedule without a short buffer both clients take and queue the same datagrams |
| Reassembly.Reassembled | src/bindings/quiche_glue.cc:491-530 | For every schedule of arrivals, FIN and positive read sizes: reads followed by unread bytes are the peer's bytes, FIN is reported only when all were read and nothing follows it, every result makes progress, so reading until FIN terminates |
| Reassembly.PathsPlayAlike | src/bindings/quiche_glue_wt.cc:517-549 | The raw path with its SkipBytes(0) step and the plain WebTransport path return the same results under every schedule |
| Reassembly.ReadIsReadOnce | src/bindings/module.cpp:284-304 | read() of the binding on a usable client returns what that read step returns, and leaves the stream, if it is still there, as that step does |
| GlueInvariant.StartKeeps | src/bindings/quiche_glue.cc:272-296 | Start keeps all invariants; it ends in OK with no text or ERROR with one |
| GlueInvariant.ReceiveKeeps | src/bindings/quiche_glue.cc:299-331 | Once a session exists the status is OK or CLOSED, CLOSED exactly when the connection is gone, with its text by precedence; all invariants are kept |
| GlueInvariant.TimeoutKeeps | src/bindings/quiche_glue.cc:395-412 | The same for HandleTimeout |
| GlueInvariant.CloseKeeps | src/bindings/quiche_glue.cc:414-422 | Close keeps all invariants and queues exactly what the library wrote |
| GlueInvariant.NextSendKeeps | src/bindings/quiche_glue.cc:334-356 | With the binding's buffer TOO_BIG cannot happen; the oldest packet leaves the queue and nothing else changes |
| GlueInvariant.RoundUpBounds | src/bindings/quiche_glue.cc:380-389 | The rounded deadline is never early and less than a millisecond late; a future alarm never rounds to zero |
| GlueInvariant.DeliverKeeps | src/bindings/quiche_glue.cc:69-124 | Any allowed sequence of callbacks keeps all invariants and touches only what callbacks may touch |
| GlueObject.GlueClient.WritePacket | src/bindings/quiche_glue_sans_io.h:28-36 | A written packet joins the end of the send queue |
| GlueObject.GlueClient.OnSessionClosed | src/bindings/quiche_glue.cc:81-87 | A closed session is no longer ready and its code and message are remembered |
| GlueObject.GlueClient.OnDatagramReceived | src/bindings/quiche_glue.cc:93-95 | A datagram joins the end of the inbound queue |
| GlueObject.GlueClient.PopulateClosedErrorIfNeeded | src/bindings/quiche_glue.cc:750-763 | An empty last_error becomes the peer's close message or code, if there is one; a recorded text is kept |
| GlueObject.GlueClient.OnCompleteResponse | src/bindings/quiche_glue_http3.cc:46-64 | The response is stored under its stream with all headers, the body, and the status parsed from the ":status" header (Prelude.ParseIntOfDecimal), 0 when that is missing or no number |
| GlueObject.GlueClient.InLibrary | src/bindings/quiche_glue.cc:69-124 | Packets and callbacks of one library call take effect in order |
| GlueObject.GlueClient.Start | src/bindings/quiche_glue.cc:272-296 | Refines `Glue.Start` (GlueInvariant.StartKeeps, LastError.ErrorTextFits) |
| GlueObject.GlueClient.ReceivePacket | src/bindings/quiche_glue.cc:299-331 | Refines `Glue.ReceivePacket` (GlueInvariant.ReceiveKeeps) |
| GlueObject.GlueClient.NextSend | src/bindings/quiche_glue.cc:334-356 | The oldest packet is copied to the front of the caller's buffer, the rest of the buffer untouched; a short buffer leaves the queue alone |
| GlueObject.GlueClient.NextTimeoutMs | src/bindings/quiche_glue.cc:360-391 | In 64-bit signed arithmetic no step overflows, and the result is the rounded distance to the earliest alarm (GlueInvariant.RoundUpBounds) |
| GlueObject.GlueClient.HandleTimeout | src/bindings/quiche_glue.cc:395-412 | Refines `Glue.HandleTimeout` (GlueInvariant.TimeoutKeeps) |
| GlueObject.GlueClient.Close | src/bindings/quiche_glue.cc:414-422 | Refines `Glue.Close` (GlueInvariant.CloseKeeps) |
| GlueObject.GlueClient.EnsureUsable | src/bindings/quiche_glue.cc:712-724 | OK exactly when streams and datagrams may be used; otherwise CLOSED (raw) or ERROR (WebTransport) with text |
| GlueObject.GlueClient.RequireStream | src/bindings/quiche_glue.cc:726-748 | OK exactly when usable and the stream exists; NOT_FOUND names the stream |
| GlueObject.GlueClient.OpenStream | src/bindings/quiche_glue.cc:431-464 | Refines `Glue.OpenStream` |
| GlueObject.GlueClient.AcceptStream | src/bindings/quiche_glue.cc:466-489 | Refines `Glue.AcceptStream` (Theorems.AcceptedOnce) |
| GlueObject.GlueClient.ReadStream | src/bindings/quiche_glue.cc:491-530 | The bytes read land at the front of the caller's buffer, the rest untouched, in both clients' variants (Reassembly.ReadIsReadOnce) |
| GlueObject.GlueClient.WriteStream | src/bindings/quiche_glue.cc:532-570 | Refines `Glue.WriteStream`: the payload is appended only with status OK (AttemptFacts.AttemptMoves) |
| GlueObject.GlueClient.SignalStream | src/bindings/quiche_glue.cc:572-594 | Refines `Glue.SignalStream` |
| GlueObject.GlueClient.SendDatagram | src/bindings/quiche_glue.cc:607-628 | Refines `Glue.SendDatagram` |
| GlueObject.GlueClient.PeekDatagramSize | src/bindings/quiche_glue.cc:630-642 | Refines `Glue.PeekDatagramSize` |
| GlueObject.GlueClient.ReceiveDatagram | src/bindings/quiche_glue.cc:644-670 | The head lands at the front of the caller's buffer; the raw object checks before it takes, the WebTransport object after |
| GlueObject.GlueClient.FillBlock | src/bindings/quiche_glue_http3.cc:325-340 | The header loop fails exactly when some name is empty, and later values overwrite earlier ones |
| GlueObject.GlueClient.Associate | src/bindings/quiche_glue_wt.cc:454-463 | A session, a fresh visitor and the connect flag are set together or not at all |
| GlueObject.GlueClient.ConnectSession | src/bindings/quiche_glue_wt.cc:387-464 | Refines `Glue.ConnectSession` (AttemptFacts.ConnectOnce, AttemptFacts.ConnectBlockIsConnect) |
| GlueObject.GlueClient.SubmitRequest | src/bindings/quiche_glue_http3.cc:292-347 | Refines `Glue.SubmitRequest` (Theorems.EachRequestItsOwnReply) |
| GlueObject.GlueClient.TakeResponse | src/bindings/quiche_glue_http3.cc:349-371 | Refines `Glue.TakeResponse` (Theorems.ResponsesPartition) |
| GlueObject.EmptyNameSpoils | src/bindings/quiche_glue_http3.cc:326-331 | One empty header name anywhere makes the whole block fail |

## Left out

- QUICHE itself (TLS, loss recovery, congestion and flow control, frame coding) is not part of this model; it enters as the contract described above.
- Objects whose constructor failed, null pointers handed to the C functions, and the C function table: the Python binding never passes any of them on.
- Mutexes: every glue call is one atomic step.
- The lifetimes of the library's session and visitor objects after a WebTransport session ends; they are modelled as set or unset.
- Name resolution and creation of the UDP endpoint are free choices between success and failure.
- Arithmetic of call_later in floating-point seconds, and the difference between the loop's clock and the library's: one clock of whole microseconds is used, kept 999 below the 64-bit limit.
- The close code and reason given to close(): the HTTP/3 glue ignores them, and for the others they are part of the library's reaction.
- Header details: the order of headers in the block, pseudo-headers included, is not modelled. A path holding a NUL character, which the C interface cuts short, is not modelled.
- Stream ids are natural numbers, not 32-bit words; the library never issues one that does not fit.
- The largest packet of the packet writer (1452 bytes) is a constant of the library, taken as given.
- max_datagram_size, can_write, is_open, stream properties, the resolved peer address, get() of the HTTP/3 client and error_received, which does nothing.
- `_wait` across an await is not one method of `AsyncObject.AsyncClient`: each trip through its loop is (`Wait`, `Leave`), and `Machine` puts the trips together with everything that can happen in between.
- Theorems.StagedDeadlines: assumes that time does not pass while a task could run, since an event loop that is kept busy can delay any deadline.
- Theorems.NoLostWakeup: what write, open, submit and CONNECT wait for is decided inside the library, so for them only the first half (no event since the last attempt) applies.
