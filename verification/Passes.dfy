/** The machine of tasks and the imperative client take the same steps. */
module Passes {
  import opened Prelude
  import opened Engine
  import opened Glue
  import opened Binding
  import opened Driver
  import opened Machine
  import opened AsyncObject

  /** A turn of the machine is one pass, followed by what the method does with its outcome: go on to its
      next wait or return (after `_process`, where it calls it), end (connect() tears down on any
      exception), or sleep until the future is done or the time is up. */
  lemma TurnIsAPass(s: Sys, t: nat, a: Answer, e: Effect)
    requires TurnOk(s, t, a, e) && RegionFits(CoreOf(s, t), OpOf(s.tasks[t]), a)
    requires CoreOf(s, t).kind == s.kind
    ensures var (c, d, r) := Pass(CoreOf(s, t), s.d, OpOf(s.tasks[t]), Deadline(s.tasks[t]), a, e);
      Concluded(s, t, Turn(s, t, a, e), c, d, r)
  {
    var k := s.tasks[t];
    if s.d.closed {
      var text := GivenReason(s.d);
      assert SetCore(s, k.on.value, CoreOf(s, t)) == s;
      FailConcludes(s, s, t, CoreOf(s, t), ConnectionError, text);
    } else {
      var (c, r) := Attempt(CoreOf(s, t), OpOf(k), a, e);
      AttemptConcludes(s, t, c, r);
    }
  }

  lemma AttemptConcludes(s: Sys, t: nat, c: Core, r: Py<Val>)
    requires Equipped(s, t)
    ensures var (d, result) := AfterTry(s.d, s.kind, Deadline(s.tasks[t]), r);
      Concluded(s, t, AfterAttempt(s, t, c, r), c, d, result)
  {
    var k := s.tasks[t];
    var s1 := Tried(s, t, c);
    match r
    case Raise(exc, message) => FailConcludes(s, s1, t, c, exc, message);
    case Value(v) => GrantConcludes(s, t, c, v);
    case NoneYet =>
      if Deadline(k).Some? && Deadline(k).value - s.d.now <= 0 {
        FailConcludes(s, s1, t, c, TimeoutError, TimeoutText(s.kind));
      } else {
        ParkConcludes(s, t, c);
      }
  }

  /** What the method does once a pass is over; `c` is the core it asked, `d` the client otherwise. */
  ghost predicate Concluded(s: Sys, t: nat, s': Sys, c: Core, d: Client, r: WaitResult)
    requires Equipped(s, t)
  {
    && d.core == s.d.core
    && var k := s.tasks[t];
    var s1 := SetCore(s.(d := d), k.on.value, c);
    && |s'.tasks| == |s.tasks| && s'.retired == s1.retired
    && match r
       case Gives(v) =>
         && s'.d == (if ProcessesAfter(k.call, k.stage) then Process(s1.d) else s1.d)
         && s'.log == s.log + [Entry(t, k.stage, k.on.value, OpOf(k), v)]
         && s'.tasks[t].stage == k.stage + 1
         && s'.tasks[t].phase == (if k.stage + 1 == Stages(s.kind, k.call) then Finished(Returned(v), s.d.now)
                                  else Ready)
       case Throws(exc, message) =>
         && s'.d == (if k.call.Connect? then Teardown(s1.d, "connect failed") else s1.d) && s'.log == s.log
         && s'.tasks[t].stage == k.stage
         && s'.tasks[t].phase == Finished(Failed(exc, message), s.d.now)
       case Parks(f, remaining) =>
         && s'.d == s1.d && s'.log == s.log && s'.tasks[t].stage == k.stage
         && s'.tasks[t].phase == Parked(f, if remaining.None? then None else Some(s.d.now + remaining.value))
  }

  lemma FailConcludes(s: Sys, s1: Sys, t: nat, c: Core, exc: Exc, message: string)
    requires Equipped(s, t) && |s.tasks| == |s1.tasks| && s1.log == s.log && s1.tasks[t].call == s.tasks[t].call
    requires s1.tasks[t].stage == s.tasks[t].stage
    requires s1.d == SetCore(s, s.tasks[t].on.value, c).d
    requires s1.retired == SetCore(s, s.tasks[t].on.value, c).retired
    ensures Concluded(s, t, Fail(s1, t, exc, message), c, s.d, Throws(exc, message))
  {}

  lemma GrantConcludes(s: Sys, t: nat, c: Core, v: Val)
    requires Equipped(s, t)
    ensures var s1 := Grant(s, t, c, v);
      Concluded(s, t, if ProcessesAfter(s.tasks[t].call, s.tasks[t].stage) then s1.(d := Process(s1.d)) else s1,
                c, s.d, Gives(v))
  {}

  lemma ParkConcludes(s: Sys, t: nat, c: Core)
    requires Equipped(s, t)
    requires !(Deadline(s.tasks[t]).Some? && Deadline(s.tasks[t]).value - s.d.now <= 0)
    ensures var (d, r) := Sleep(s.d, s.kind, Deadline(s.tasks[t]));
      Concluded(s, t, Park(Tried(s, t, c), t), c, d, r)
  {}
}
