/** That frames are sent (src/topic_reader_h264.cpp): which frames pass the gate, that a running output drops
    none, and where the clock is anchored. */
module Sending {
  import opened Options
  import opened Arithmetic
  import opened VideoOutput

  // ----- the gate -----

  /** The 16-bit count is that of the frames sent. */
  lemma StepCounts(s: OutputState, e: Event)
    requires s.numSent == |SentFrames(s.log)| % 0x1_0000
    ensures Step(s, e).numSent == |SentFrames(Step(s, e).log)| % 0x1_0000
  {
    var s' := Step(s, e);
    if s'.log != s.log {
      assert s'.log[..|s'.log| - 1] == s.log;
    }
  }

  lemma {:induction false} RunCounts(s: OutputState, es: seq<Event>)
    requires s.numSent == |SentFrames(s.log)| % 0x1_0000
    ensures Run(s, es).numSent == |SentFrames(Run(s, es).log)| % 0x1_0000
    decreases |es|
  {
    if es != [] {
      StepCounts(s, es[0]);
      RunCounts(Step(s, es[0]), es[1..]);
    }
  }

  /** In every run a frame that is offered while no other is on its way to the queue passes exactly when the
      output runs, the peer is ready and its track is open, and either the frame is a keyframe or the number of
      frames sent so far is not a multiple of 65536: so the gate is open after the first frame sent, and
      closes for a moment each time the 16-bit count comes round to 0. */
  lemma PassesIff(es: seq<Event>, f: Frame, initComplete: bool, open: bool)
    requires Run(FRESH, es).passed == None
    ensures var s := Run(FRESH, es);
            Step(s, Offer(f, initComplete, open)).passed ==
            if s.running && initComplete && open && (f.key || |SentFrames(s.log)| % 65536 != 0) then Some(f) else None
  {
    assert SentFrames([]) == [];
    RunCounts(FRESH, es);
  }

  // ----- the worker -----

  predicate KeepsRunning(e: Event) {
    e != Remove && e != Stop
  }

  ghost predicate Running(s: OutputState) {
    s.running && s.active && !s.exited && forall k :: 0 <= k < |s.log| ==> s.log[k].1 != Dropped
  }

  lemma {:induction false} RunRunning(s: OutputState, es: seq<Event>)
    requires Running(s) && forall e :: e in es ==> KeepsRunning(e)
    ensures Running(Run(s, es))
    decreases |es|
  {
    if es != [] {
      assert es[0] in es;
      RunRunning(Step(s, es[0]), es[1..]);
    }
  }

  /** As long as an output is neither removed nor stopped no frame is dropped: under every interleaving what was
      taken from the queue was sent or failed to send, and the front of the queue is sent next. */
  lemma NoneDropped(es: seq<Event>, now: nat, base: nat)
    requires forall e :: e in es ==> KeepsRunning(e)
    ensures forall k :: 0 <= k < |Run(FRESH, es).log| ==> Run(FRESH, es).log[k].1 != Dropped
    ensures var s := Run(FRESH, es);
            s.current == None && s.queue != [] ==>
              var s' := Step(Step(s, Pop(now, base)), Finish(true));
              && s'.queue == s.queue[1..] && s'.current == None && |s'.log| == |s.log| + 1 && s'.log[..|s.log|] == s.log
              && s'.log[|s.log|].0 == s.queue[0] && s'.log[|s.log|].1.Sent?
  {
    RunRunning(FRESH, es);
  }

  lemma {:induction false} InactiveSends(s: OutputState, es: seq<Event>)
    requires !s.active
    ensures !Run(s, es).active
    ensures SentFrames(Run(s, es).log) == SentFrames(s.log)
            || (s.current.Some? && SentFrames(Run(s, es).log) == SentFrames(s.log) + [s.current.value.0])
    decreases |es|
  {
    if es != [] {
      var s1 := Step(s, es[0]);
      InactiveStep(s, es[0]);
      InactiveSends(s1, es[1..]);
    }
  }

  lemma InactiveStep(s: OutputState, e: Event)
    requires !s.active
    ensures var s1 := Step(s, e);
            && !s1.active
            && if s1.current == s.current then SentFrames(s1.log) == SentFrames(s.log)
               else s.current.Some? && s1.current == None
                    && (SentFrames(s1.log) == SentFrames(s.log)
                        || SentFrames(s1.log) == SentFrames(s.log) + [s.current.value.0])
  {
    var s1 := Step(s, e);
    if s1.log != s.log {
      assert s1.log[..|s1.log| - 1] == s.log;
    }
  }

  /** Once an output is removed or stopped, whatever still happens: nothing is sent any more but the frame that
      the worker has in hand, and with nothing in hand the worker may end. */
  lemma RemovedSendsNoMore(es: seq<Event>, e: Event, later: seq<Event>)
    requires e == Remove || e == Stop
    ensures var s := Run(FRESH, es);
            var s' := Run(Step(s, e), later);
            && (SentFrames(s'.log) == SentFrames(s.log)
                || (s.current.Some? && SentFrames(s'.log) == SentFrames(s.log) + [s.current.value.0]))
            && (s'.current == None ==> Step(s', Exit).exited)
  {
    InactiveSends(Step(Run(FRESH, es), e), later);
  }

  // ----- the anchor -----

  ghost predicate Anchored(c: Clock) {
    c.first == 0 <==> c.last == 0
  }

  lemma {:induction false} RunAnchored(s: OutputState, es: seq<Event>)
    requires Anchored(s.clock)
    ensures Anchored(Run(s, es).clock)
    decreases |es|
  {
    if es != [] {
      RunAnchored(Step(s, es[0]), es[1..]);
    }
  }

  lemma AnchorStep(s: OutputState, now: nat, base: nat)
    requires s.running && s.active && !s.exited && s.current == None && s.queue != []
    requires s.queue[0].ts <= s.clock.last || s.clock.first == 0
    ensures Step(Step(s, Pop(now, base)), Finish(true)).log
         == s.log + [(s.queue[0], Sent((now - base) % 0x1_0000_0000))]
  {
    ModMod(now - base);
  }

  lemma LastPopped(s: OutputState, base: nat)
    requires ClockOk(s, base) && s.current == None
    ensures s.clock.last == LastTs(s.log)
  {
    assert History(s) == s.log;
  }

  /** The first frame, one that goes back in time, and one after a frame at 0 anchor the clock: such a frame is
      stamped with the time at which the worker took it, counted from the base of the peer, in 32 bits. */
  lemma AnchorStamp(es: seq<Event>, now: nat, base: nat)
    requires (forall k :: 0 <= k < |es| ==> EventOk(es[k], base)) && forall e :: e in es ==> KeepsRunning(e)
    requires var s := Run(FRESH, es);
             s.current == None && s.queue != [] && (s.queue[0].ts <= LastTs(s.log) || LastTs(s.log) == 0)
    ensures var s := Run(FRESH, es);
            var s' := Step(Step(s, Pop(now, base)), Finish(true));
            s'.log == s.log + [(s.queue[0], Sent((now - base) % 0x1_0000_0000))]
  {
    RunRunning(FRESH, es);
    RunAnchored(FRESH, es);
    FreshClockOk(base);
    RunClockOk(FRESH, es, base);
    LastPopped(Run(FRESH, es), base);
    AnchorStep(Run(FRESH, es), now, base);
  }

  lemma ModMod(x: int)
    ensures x % 0x1_0000_0000_0000_0000 % 0x1_0000_0000 == x % 0x1_0000_0000
  {
    var q, r := x / 0x1_0000_0000_0000_0000, x % 0x1_0000_0000_0000_0000;
    assert x == 0x1_0000_0000 * (0x1_0000_0000 * q) + r;
    ModShift(r, 0x1_0000_0000 * q, 0x1_0000_0000);
  }
}
