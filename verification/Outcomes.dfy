/** When an awaitable operation returns, waits or raises, and with which exception,
    seen from the caller: through the driver's attempt, the binding and the glue. */
module Outcomes {
  import opened Prelude
  import opened Engine
  import opened Glue
  import opened GlueInvariant
  import opened Binding
  import opened AttemptFacts
  import opened Headers

  datatype Answered = Returns | Waits | Raises(exc: Exc)

  function Kinded<T>(r: Py<T>): Answered
  {
    match r
    case Value(_) => Returns
    case NoneYet => Waits
    case Raise(exc, _) => Raises(exc)
  }

  /** Asking a client that cannot serve streams: a closed connection, or a session that is not ready. */
  function RefusedBy(kind: Kind): Exc { if kind.Raw? then ConnectionError else RuntimeError }

  lemma WriteAnswers(c: Core, op: Op, a: Answer, e: Effect)
    requires op.Write?
    ensures Kinded(Attempt(c, op, a, e).1) ==
      if |op.data| > MAX_INPUT_BYTES || (op.data == [] && !op.fin) then Raises(ValueError)
      else if !Usable(c) then Raises(RefusedBy(c.kind))
      else if op.id !in c.engine.streams then Raises(KeyError)
      else if !a.canWrite || a.write.Unavailable? then Waits
      else if a.write.Refused? then Raises(RuntimeError)
      else Returns
  {}

  /** A read waits exactly while the stream has neither unread bytes nor a FIN. */
  lemma ReadAnswers(c: Core, op: Op, a: Answer, e: Effect)
    requires op.Read? && (op.id in c.engine.streams ==> RegionOk(c.engine.streams[op.id], a.region))
    ensures Kinded(Attempt(c, op, a, e).1) ==
      if op.maxBytes == 0 || op.maxBytes > MAX_INPUT_BYTES then Raises(ValueError)
      else if !Usable(c) then Raises(RefusedBy(c.kind))
      else if op.id !in c.engine.streams then Raises(KeyError)
      else if c.engine.streams[op.id].unread == [] && !c.engine.streams[op.id].finReceived then Waits
      else Returns
  {
    if Usable(c) && op.id in c.engine.streams {
      var s := c.engine.streams[op.id];
      assert HasData(Peek(s, a.region)) <==> s.unread != [] || s.finReceived;
    }
  }

  /** An opened stream has a fresh id and is empty. */
  lemma OpenAnswers(c: Core, op: Op, a: Answer, e: Effect)
    requires CoreOk(c) && op.Open? && AttemptOk(c, op, a, e)
    ensures var (c', r) := Attempt(c, op, a, e);
      && Kinded(r) == (if !Usable(c) then Raises(RefusedBy(c.kind)) else if a.stream.None? then Waits else Returns)
      && (r.Value? ==> r.value.Opened? && r.value.id !in c.engine.issued && r.value.id in c'.engine.issued
                       && Had(StreamsOf(c'), r.value.id) && Last(StreamsOf(c'), r.value.id) == NEW_STREAM)
  {
    var (c', r) := Attempt(c, op, a, e);
    if r.Value? {
      var id := a.stream.value;
      var c1 := Clear(c).(engine := c.engine.(streams := c.engine.streams[id := NEW_STREAM],
                                              issued := c.engine.issued + {id}));
      OpenStep(c, op, id);
      ApplyAppKeeps(c1, e);
    }
  }

  lemma SendAnswers(c: Core, op: Op, a: Answer, e: Effect)
    requires op.SendDgram?
    ensures Kinded(Attempt(c, op, a, e).1) ==
      if |op.data| > MAX_INPUT_BYTES then Raises(ValueError)
      else if !Usable(c) then Raises(RefusedBy(c.kind))
      else match a.datagram
           case Success => Returns
           case Blocked => Waits
           case TooBig(_) => Raises(ValueError)
           case InternalError(_) => Raises(RuntimeError)
  {}

  /** A request is refused exactly for oversize input, a missing connection or an empty header name. */
  lemma SubmitAnswers(c: Core, op: Op, a: Answer, e: Effect)
    requires op.Submit?
    ensures Kinded(Attempt(c, op, a, e).1) ==
      if !HeadersFit(op.headers) || |op.body| > MAX_INPUT_BYTES then Raises(ValueError)
      else if !c.engine.connected then Raises(RuntimeError)
      else if a.stream.None? then Waits
      else if Named(op.headers, "") then Raises(ValueError)
      else Returns
  {
    BlockHoldsTheLast(op.headers);
  }

  lemma ConnectAnswers(c: Core, op: Op, a: Answer, e: Effect)
    requires op.OpenSession?
    ensures Kinded(Attempt(c, op, a, e).1) ==
      if !HeadersFit(op.headers) || op.path == "" then Raises(ValueError)
      else if c.connectRequested && c.hasTransport then Returns
      else if !c.engine.connected then Waits
      else if !c.engine.session then Raises(RuntimeError)
      else if !a.settings then Waits
      else if !a.supported then Raises(RuntimeError)
      else if a.stream.None? then Waits
      else if Named(op.headers, "") then Raises(ValueError)
      else if a.associated then Returns
      else Raises(RuntimeError)
  {
    BlockHoldsTheLast(op.headers);
  }
}
