/** Reading a stream to its end (the byte-stream abstraction of section 2.2 of
    RFC 9000): for every schedule of arrivals, FIN and read sizes, on the raw path
    with its SkipBytes(0) step and on the WebTransport path without it. */
module Reassembly {
  import opened Prelude
  import opened Engine
  import opened Glue
  import opened GlueInvariant
  import opened Binding
  import opened AttemptFacts

  datatype StreamStep =
    | Arrives(data: Bytes, fin: bool)
    | Reads(maxBytes: nat, region: nat)

  datatype ReadResult = ReadResult(data: Bytes, fin: bool)

  /** What one read() call does to its stream and returns, None while there is nothing. */
  function ReadOnce(kind: Kind, s: Stream, n: nat, region: nat): (Stream, Option<ReadResult>)
    requires RegionOk(s, region)
  {
    var peek := Peek(s, region);
    if !HasData(peek) then (s, None)
    else if kind.Raw? && peek.data == [] && peek.finNext then (s, Some(ReadResult([], SkipNothing(s))))
    else
      var (s1, data, fin) := ReadUpTo(s, n);
      if kind.Raw? && data == [] && !fin then (s1, None) else (s1, Some(ReadResult(data, fin)))
  }

  /** The binding's read() on a usable client is ReadOnce on the stream. */
  lemma ReadIsReadOnce(c: Core, id: StreamId, n: nat, region: nat, e: Effect)
    requires CoreOk(c) && Usable(c) && id in c.engine.streams && RegionOk(c.engine.streams[id], region)
    requires 0 < n <= MAX_INPUT_BYTES && AppEffectOk(c, e)
    ensures var (s', result) := ReadOnce(c.kind, c.engine.streams[id], n, region);
      var (c', r) := PyRead(c, id, n, region, e);
      && Had(StreamsOf(c'), id) && Last(StreamsOf(c'), id) == s'
      && r == (if result.None? then NoneYet else Value(Chunk(result.value.data, result.value.fin)))
  {
    var c0 := Clear(c);
    var s' := ReadOnce(c.kind, c.engine.streams[id], n, region).0;
    ShrinkOnly(c0, e);
    ShrinkOnly(c0.(engine := c0.engine.(streams := c0.engine.streams[id := s'])), e);
  }

  lemma ShrinkOnly(c: Core, e: Effect)
    requires forall i :: 0 <= i < |e.events| ==> e.events[i].StreamGone?
    ensures SameStreams(StreamsOf(c), StreamsOf(Apply(c, e)))
  {
    DeliverGone(c.(engine := c.engine.(connected := e.connected, alarms := e.alarms),
                   queue := c.queue + e.packets,
                   past := c.past.(written := c.past.written + e.packets)), e.events);
  }

  /** Both paths do the same for every positive read size. */
  lemma PathsAgree(s: Stream, n: nat, region: nat)
    requires RegionOk(s, region) && n > 0
    ensures ReadOnce(Raw, s, n, region) == ReadOnce(Wt, s, n, region)
  {
    if s.unread == [] && s.finReceived {
      assert ReadUpTo(s, n).0 == s;
    }
  }

  datatype Progress = Progress(stream: Stream, results: seq<ReadResult>)

  function After(kind: Kind, p: Progress, step: StreamStep): Progress
    requires step.Reads? ==> RegionOk(p.stream, step.region)
  {
    match step
    case Arrives(data, fin) => p.(stream := Arrive(p.stream, data, fin))
    case Reads(n, region) =>
      var (s', result) := ReadOnce(kind, p.stream, n, region);
      Progress(s', if result.None? then p.results else p.results + [result.value])
  }

  /** Bytes never follow FIN, read sizes are positive, a peek shows a first region. */
  predicate StepFits(s: Stream, step: StreamStep)
  {
    match step
    case Arrives(data, _) => s.finReceived ==> data == []
    case Reads(n, region) => n > 0 && RegionOk(s, region)
  }

  predicate ScheduleOk(kind: Kind, p: Progress, steps: seq<StreamStep>)
    decreases |steps|
  {
    steps == [] || (StepFits(p.stream, steps[0]) && ScheduleOk(kind, After(kind, p, steps[0]), steps[1..]))
  }

  function Play(kind: Kind, p: Progress, steps: seq<StreamStep>): Progress
    requires ScheduleOk(kind, p, steps)
    decreases |steps|
  {
    if steps == [] then p else Play(kind, After(kind, p, steps[0]), steps[1..])
  }

  function Concat(results: seq<ReadResult>): Bytes
  {
    if results == [] then [] else Concat(results[..|results| - 1]) + results[|results| - 1].data
  }

  /** The bytes read up to and including result i. */
  function ReadSoFar(results: seq<ReadResult>, i: nat): Bytes
    requires i < |results|
  {
    Concat(results[..i + 1])
  }

  function Sent(steps: seq<StreamStep>): Bytes
  {
    if steps == [] then [] else (if steps[0].Arrives? then steps[0].data else []) + Sent(steps[1..])
  }

  /** Everything read so far, followed by everything unread, is everything that arrived; every result
      made progress; and once a result reported FIN, everything had been read and nothing follows. */
  ghost predicate ProgressOk(p: Progress)
  {
    && StreamOk(p.stream) && p.stream.delivered == Concat(p.results)
    && (forall i :: 0 <= i < |p.results| ==> p.results[i].data != [] || p.results[i].fin)
    && (forall i :: 0 <= i < |p.results| && p.results[i].fin ==>
          p.stream.finReceived && p.stream.unread == [] && ReadSoFar(p.results, i) == p.stream.received)
    && (forall i, j :: 0 <= i < j < |p.results| && p.results[i].fin ==> p.results[j] == ReadResult([], true))
  }

  /** Both paths amount to one plain read, or to nothing. */
  lemma ReadOnceReads(kind: Kind, s: Stream, n: nat, region: nat)
    requires n > 0 && RegionOk(s, region)
    ensures var (s1, data, fin) := ReadUpTo(s, n);
      var (s', result) := ReadOnce(kind, s, n, region);
      if result.None? then s' == s && s.unread == [] && !s.finReceived
      else s' == s1 && result.value == ReadResult(data, fin) && (data != [] || fin)
  {
    if s.unread == [] { assert ReadUpTo(s, n).0 == s; }
  }

  /** Appending one result of a plain read. */
  lemma ResultProgress(p: Progress, n: nat)
    requires ProgressOk(p) && n > 0 && (p.stream.unread != [] || p.stream.finReceived)
    ensures var (s1, data, fin) := ReadUpTo(p.stream, n);
      ProgressOk(Progress(s1, p.results + [ReadResult(data, fin)]))
  {
    var (s1, data, fin) := ReadUpTo(p.stream, n);
    var p' := Progress(s1, p.results + [ReadResult(data, fin)]);
    ReadUpToSplits(p.stream, n);
    ConcatAppends(p.results, ReadResult(data, fin));
    forall i | 0 <= i < |p'.results| && p'.results[i].fin
      ensures s1.finReceived && s1.unread == [] && ReadSoFar(p'.results, i) == s1.received
      ensures i < |p.results| ==> ReadResult(data, fin) == ReadResult([], true)
    {
      if i < |p.results| {
        assert p.results[i].fin;
      } else {
        assert s1.delivered + s1.unread == s1.delivered;
      }
    }
  }

  /** A result more: what the earlier ones had read stays as it was. */
  lemma ConcatAppends(results: seq<ReadResult>, x: ReadResult)
    ensures var longer := results + [x];
      && Concat(longer) == Concat(results) + x.data && ReadSoFar(longer, |results|) == Concat(longer)
      && forall i :: 0 <= i < |results| ==> ReadSoFar(longer, i) == ReadSoFar(results, i)
  {
    var longer := results + [x];
    assert longer[..|results|] == results && longer[..|longer|] == longer;
    forall i | 0 <= i < |results| ensures ReadSoFar(longer, i) == ReadSoFar(results, i) {
      assert longer[..i + 1] == results[..i + 1];
    }
  }

  lemma ReadProgress(kind: Kind, p: Progress, n: nat, region: nat)
    requires ProgressOk(p) && n > 0 && RegionOk(p.stream, region)
    ensures ProgressOk(After(kind, p, Reads(n, region)))
  {
    ReadOnceReads(kind, p.stream, n, region);
    if ReadOnce(kind, p.stream, n, region).1.Some? {
      ResultProgress(p, n);
    }
  }

  lemma ArriveProgress(kind: Kind, p: Progress, data: Bytes, fin: bool)
    requires ProgressOk(p) && (p.stream.finReceived ==> data == [])
    ensures ProgressOk(After(kind, p, Arrives(data, fin)))
  {
    var s := p.stream;
    assert s.received + data == s.delivered + (s.unread + data);
    assert s.finReceived ==> s.unread + data == s.unread && s.received + data == s.received;
  }

  lemma {:induction false} PlayProgress(kind: Kind, p: Progress, steps: seq<StreamStep>)
    requires ProgressOk(p) && ScheduleOk(kind, p, steps)
    ensures ProgressOk(Play(kind, p, steps))
    decreases |steps|
  {
    if steps != [] {
      match steps[0] {
        case Arrives(data, fin) => ArriveProgress(kind, p, data, fin);
        case Reads(n, region) => ReadProgress(kind, p, n, region);
      }
      PlayProgress(kind, After(kind, p, steps[0]), steps[1..]);
    }
  }

  lemma {:induction false} PlayReceives(kind: Kind, p: Progress, steps: seq<StreamStep>)
    requires ScheduleOk(kind, p, steps)
    ensures Play(kind, p, steps).stream.received == p.stream.received + Sent(steps)
    decreases |steps|
  {
    if steps == [] {
      assert p.stream.received + [] == p.stream.received;
    } else {
      PlayReceives(kind, After(kind, p, steps[0]), steps[1..]);
      ReceivedAfter(kind, p, steps[0]);
      AppendsAssociate(p.stream.received, if steps[0].Arrives? then steps[0].data else [], Sent(steps[1..]));
    }
  }

  lemma AppendsAssociate(a: Bytes, b: Bytes, c: Bytes)
    ensures (a + b) + c == a + (b + c)
  {}

  lemma ReceivedAfter(kind: Kind, p: Progress, step: StreamStep)
    requires StepFits(p.stream, step)
    ensures After(kind, p, step).stream.received
            == p.stream.received + (if step.Arrives? then step.data else [])
  {}

  lemma {:induction false} SilentReadsAreFew(results: seq<ReadResult>)
    requires forall i :: 0 <= i < |results| ==> results[i].data != []
    ensures |results| <= |Concat(results)|
  {
    if results != [] { SilentReadsAreFew(results[..|results| - 1]); }
  }

  const FRESH := Progress(NEW_STREAM, [])

  /** What a reader may rely on: what was read, followed by what is still unread, is what the peer sent;
      FIN is reported only when everything was read, and nothing follows it; every result is progress;
      so a reader that has not seen FIN has made no more reads than bytes were sent. */
  ghost predicate ReadsBack(p: Progress, sent: Bytes)
  {
    && Concat(p.results) + p.stream.unread == sent
    && (forall i :: 0 <= i < |p.results| ==> p.results[i].data != [] || p.results[i].fin)
    && (forall i :: 0 <= i < |p.results| && p.results[i].fin ==> ReadSoFar(p.results, i) == sent)
    && (forall i, j :: 0 <= i < j < |p.results| && p.results[i].fin ==> p.results[j] == ReadResult([], true))
    && ((forall i :: 0 <= i < |p.results| ==> !p.results[i].fin) ==> |p.results| <= |sent|)
  }

  lemma ProgressReadsBack(p: Progress)
    requires ProgressOk(p)
    ensures ReadsBack(p, p.stream.received)
  {
    if forall i :: 0 <= i < |p.results| ==> !p.results[i].fin {
      SilentReadsAreFew(p.results);
    }
  }

  /** For every schedule on a new stream, on both paths. */
  lemma Reassembled(kind: Kind, steps: seq<StreamStep>)
    requires ScheduleOk(kind, FRESH, steps)
    ensures ReadsBack(Play(kind, FRESH, steps), Sent(steps))
  {
    PlayProgress(kind, FRESH, steps);
    PlayReceives(kind, FRESH, steps);
    assert [] + Sent(steps) == Sent(steps);
    ProgressReadsBack(Play(kind, FRESH, steps));
  }

  /** The raw and the WebTransport client return the same results under the same schedule. */
  lemma {:induction false} PathsPlayAlike(p: Progress, steps: seq<StreamStep>)
    requires ScheduleOk(Raw, p, steps)
    ensures ScheduleOk(Wt, p, steps) && Play(Wt, p, steps) == Play(Raw, p, steps)
    decreases |steps|
  {
    if steps != [] {
      if steps[0].Reads? { PathsAgree(p.stream, steps[0].maxBytes, steps[0].region); }
      PathsPlayAlike(After(Raw, p, steps[0]), steps[1..]);
    }
  }
}
