/** One video output: the keyframe gate between the subscriber and the output worker, and the RTP
    clock (src/topic_reader_h264.cpp; convertToRtpTimestamp of src/lib.cpp). */
module VideoOutput {
  import opened Options
  import opened Arithmetic

  const U64 := 0x1_0000_0000_0000_0000
  const U32 := 0x1_0000_0000

  datatype Frame = Frame(ts: nat, key: bool, data: string)

  /** `ts_first`, `ts_offset` and `last_raw_ts`. */
  datatype Clock = Clock(first: nat, offset: nat, last: nat)

  /** What came of a popped frame: dropped, failed to send, or sent with a 32-bit timestamp. */
  datatype Fate = Dropped | Failed | Sent(stamp: nat)

  /** `passed` is a frame that got through the checks of `onEncodedFrame` and is not yet pushed,
      `current` one that the worker popped, with its timestamp; `log` what came of earlier ones. */
  datatype OutputState = OutputState(
    running: bool, active: bool, exited: bool, numSent: nat, queue: seq<Frame>, clock: Clock,
    passed: Option<Frame>, current: Option<(Frame, nat)>, log: seq<(Frame, Fate)>)

  const FRESH := OutputState(true, true, false, 0, [], Clock(0, 0, 0), None, None, [])

  // ----- the clock -----

  /** The timestamp arithmetic of the worker, in 64 bits: the new clock, the client timestamp, and
      whether the clock was anchored anew. */
  function Stamp(c: Clock, ts: nat, now: nat, base: nat): (Clock, nat, bool) {
    var first := if ts <= c.last then 0 else c.first;
    if first == 0 then (Clock(ts, now, ts), (now - base) % U64, true)
    else (Clock(first, c.offset, ts), ((ts - first) % U64 + c.offset - base) % U64, false)
  }

  /** The 32-bit timestamp of a frame that does not anchor the clock, against the anchor. */
  lemma StampDiffers(c: Clock, ts: nat, now: nat, base: nat)
    requires c.first < U64 && ts < U64 && !Stamp(c, ts, now, base).2
    ensures (Stamp(c, ts, now, base).1 % U32 - (c.offset - base) % U64 % U32) % U32 == (ts - c.first) % U32
    ensures c.first <= c.last ==> c.last < ts && c.first <= ts
  {
    var pts := Stamp(c, ts, now, base).1;
    var x := (ts - c.first) % U64 + c.offset - base;
    assert U64 % U32 == 0;
    ModSub(pts, (c.offset - base) % U64, U32, U32);
    ModSub(x, c.offset - base, U64, U32);
    ModSub(ts - c.first, 0, U64, U32);
  }

  lemma SameDistance(a: int, b: int, origin: int, s: int, t: int, first: int)
    requires (a - origin) % U32 == (s - first) % U32 && (b - origin) % U32 == (t - first) % U32
    ensures (b - a) % U32 == (t - s) % U32
  {
    ModSub(b - origin, a - origin, U32, U32);
    ModSub(t - first, s - first, U32, U32);
  }

  // ----- producer and worker -----

  datatype Event =
    | Offer(frame: Frame, initComplete: bool, open: bool)  // the checks of onEncodedFrame
    | Push                                                 // in_queue.push, no lock held
    | Pop(now: nat, base: nat)                             // the worker takes a frame
    | Finish(ok: bool)                                     // sendFrame returned or threw
    | Exit                                                 // the worker saw it should stop
    | Remove
    | Stop

  /** One step of the producer or of the worker; a step whose time has not come changes nothing. */
  function Step(s: OutputState, e: Event): OutputState {
    match e
    case Offer(f, initComplete, open) =>
      if s.passed.Some? || !s.running || (s.numSent == 0 && !f.key) || !initComplete || !open then s
      else s.(passed := Some(f))
    case Push =>
      if s.passed.None? then s else s.(queue := s.queue + [s.passed.value], passed := None)
    case Pop(now, base) =>
      if s.exited || s.current.Some? || s.queue == [] then s
      else
        var f := s.queue[0];
        if !s.active || !s.running then s.(queue := s.queue[1..], log := s.log + [(f, Dropped)])
        else
          var (c, pts, _) := Stamp(s.clock, f.ts, now, base);
          s.(queue := s.queue[1..], clock := c, current := Some((f, pts)))
    case Finish(ok) =>
      if s.current.None? then s
      else
        var (f, pts) := s.current.value;
        s.(current := None, log := s.log + [(f, if ok then Sent(pts % U32) else Failed)],
           numSent := if ok then (s.numSent + 1) % 0x1_0000 else s.numSent)
    case Exit => if s.current.None? && (!s.running || !s.active) then s.(exited := true) else s
    case Remove => s.(active := false)
    case Stop => s.(running := false, active := false)
  }

  function Run(s: OutputState, es: seq<Event>): OutputState
    decreases |es|
  {
    if es == [] then s else Run(Step(s, es[0]), es[1..])
  }

  function Frames(log: seq<(Frame, Fate)>): (r: seq<Frame>)
    ensures |r| == |log|
  {
    seq(|log|, k requires 0 <= k < |log| => log[k].0)
  }

  /** The frames pushed during a run, in order. */
  function Pushed(s: OutputState, es: seq<Event>): seq<Frame>
    decreases |es|
  {
    if es == [] then []
    else (if es[0].Push? && s.passed.Some? then [s.passed.value] else []) + Pushed(Step(s, es[0]), es[1..])
  }

  /** Everything pushed so far, in order: what was logged, what is being sent, what is queued. */
  function Arrived(s: OutputState): seq<Frame> {
    Frames(s.log) + (if s.current.Some? then [s.current.value.0] else []) + s.queue
  }

  lemma PopArrives(s: OutputState, now: nat, base: nat)
    ensures Arrived(Step(s, Pop(now, base))) == Arrived(s)
  {
    var s' := Step(s, Pop(now, base));
    if s.exited || s.current.Some? || s.queue == [] {
      return;
    }
    var f, rest := s.queue[0], s.queue[1..];
    assert s.queue == [f] + rest && s'.queue == rest;
    if s.active && s.running {
      assert Arrived(s') == Frames(s.log) + [f] + rest;
    } else {
      assert Frames(s'.log) == Frames(s.log) + [f];
    }
    assert Frames(s.log) + [f] + rest == Frames(s.log) + [] + ([f] + rest);
  }

  lemma FinishArrives(s: OutputState, ok: bool)
    ensures Arrived(Step(s, Finish(ok))) == Arrived(s)
  {
    var s' := Step(s, Finish(ok));
    if s.current.Some? {
      assert Frames(s'.log) == Frames(s.log) + [s.current.value.0];
    }
  }

  lemma StepArrives(s: OutputState, e: Event)
    ensures Arrived(Step(s, e)) == Arrived(s) + (if e.Push? && s.passed.Some? then [s.passed.value] else [])
  {
    if e.Pop? {
      PopArrives(s, e.now, e.base);
    } else if e.Finish? {
      FinishArrives(s, e.ok);
    }
  }

  /** Frames leave in arrival order: under every interleaving of producer and worker, the logged
      frames, the one being sent and the queued ones are together exactly those pushed, in order. */
  lemma {:induction false} ArrivalOrder(s: OutputState, es: seq<Event>)
    ensures Arrived(Run(s, es)) == Arrived(s) + Pushed(s, es)
    decreases |es|
  {
    if es != [] {
      StepArrives(s, es[0]);
      ArrivalOrder(Step(s, es[0]), es[1..]);
    }
  }

  function SentFrames(log: seq<(Frame, Fate)>): seq<Frame> {
    if log == [] then []
    else SentFrames(log[..|log| - 1]) + (if log[|log| - 1].1.Sent? then [log[|log| - 1].0] else [])
  }

  /** Until something has been sent, only keyframes are on their way; the first frame sent is one. */
  ghost predicate Gated(s: OutputState) {
    && (SentFrames(s.log) == [] ==>
          && s.numSent == 0
          && (s.passed.Some? ==> s.passed.value.key)
          && (s.current.Some? ==> s.current.value.0.key)
          && forall k :: 0 <= k < |s.queue| ==> s.queue[k].key)
    && (SentFrames(s.log) != [] ==> SentFrames(s.log)[0].key)
  }

  lemma StepGated(s: OutputState, e: Event)
    requires Gated(s)
    ensures Gated(Step(s, e))
  {
    var s' := Step(s, e);
    if s'.log != s.log {
      assert s'.log[..|s'.log| - 1] == s.log;
    }
  }

  lemma {:induction false} RunGated(s: OutputState, es: seq<Event>)
    requires Gated(s)
    ensures Gated(Run(s, es))
    decreases |es|
  {
    if es != [] {
      StepGated(s, es[0]);
      RunGated(Step(s, es[0]), es[1..]);
    }
  }

  /** Under every interleaving of producer and worker, the first frame sent on an output is a keyframe, and
      until then only keyframes are on their way. */
  lemma FirstSentIsKeyframe(es: seq<Event>)
    ensures var s := Run(FRESH, es);
            if SentFrames(s.log) != [] then SentFrames(s.log)[0].key
            else forall k :: 0 <= k < |s.queue| ==> s.queue[k].key
  {
    assert SentFrames([]) == [];
    RunGated(FRESH, es);
  }

  // ----- timestamps of the frames sent -----

  /** What was popped so far, as if the frame in hand was sent. */
  function History(s: OutputState): seq<(Frame, Fate)> {
    s.log + if s.current.Some? then [(s.current.value.0, Sent(s.current.value.1 % U32))] else []
  }

  /** From entry i to entry j the source only advances; dropped frames are not looked at. */
  ghost predicate Rising(h: seq<(Frame, Fate)>, i: nat, j: nat) {
    forall k, l :: i <= k < l <= j && l < |h| && h[k].1 != Dropped && h[l].1 != Dropped ==> h[k].0.ts < h[l].0.ts
  }

  /** The source timestamp of the last frame that was not dropped. */
  function LastTs(h: seq<(Frame, Fate)>): nat {
    if h == [] then 0
    else if h[|h| - 1].1 != Dropped then h[|h| - 1].0.ts
    else LastTs(h[..|h| - 1])
  }

  /** The timestamp of an entry, against the anchor of the clock. */
  ghost predicate Follows(c: Clock, base: nat, ts: nat, stamp: nat) {
    c.first != 0 && (stamp - (c.offset - base) % U64 % U32) % U32 == (ts - c.first) % U32
  }

  ghost predicate SentSince(h: seq<(Frame, Fate)>, i: nat) {
    i < |h| && h[i].1.Sent? && h[i].0.ts > 0 && Rising(h, i, |h|)
  }

  ghost predicate KeepDistance(h: seq<(Frame, Fate)>, i: nat, j: nat)
    requires i < |h| && j < |h| && h[i].1.Sent? && h[j].1.Sent?
  {
    (h[j].1.stamp - h[i].1.stamp) % U32 == (h[j].0.ts - h[i].0.ts) % U32
  }

  ghost predicate AllKeepDistance(h: seq<(Frame, Fate)>) {
    forall i, j {:trigger Rising(h, i, j)} ::
      0 <= i < j < |h| && h[i].1.Sent? && h[j].1.Sent? && h[i].0.ts > 0 && Rising(h, i, j) ==>
      KeepDistance(h, i, j)
  }

  ghost predicate AllFollow(c: Clock, base: nat, h: seq<(Frame, Fate)>) {
    && c.last == LastTs(h) && c.first <= c.last < U64
    && forall i: nat :: SentSince(h, i) ==> Follows(c, base, h[i].0.ts, h[i].1.stamp)
  }

  ghost predicate ClockOk(s: OutputState, base: nat) {
    && AllKeepDistance(History(s)) && AllFollow(s.clock, base, History(s))
    && (s.passed.Some? ==> s.passed.value.ts < U64) && forall k :: 0 <= k < |s.queue| ==> s.queue[k].ts < U64
  }

  /** 64-bit timestamps, and one base for the peer. */
  predicate EventOk(e: Event, base: nat) {
    (e.Offer? ==> e.frame.ts < U64) && (e.Pop? ==> e.base == base)
  }

  lemma LastIsLast(h: seq<(Frame, Fate)>, i: nat)
    requires i < |h| && h[i].1 != Dropped && Rising(h, i, |h|)
    ensures h[i].0.ts <= LastTs(h)
    decreases |h|
  {
    if h[|h| - 1].1 == Dropped {
      LastIsLast(h[..|h| - 1], i);
    }
  }

  /** A frame that is stamped follows the clock that stamped it. */
  lemma StampFollows(c: Clock, ts: nat, now: nat, base: nat)
    requires 0 < ts < U64 && c.first <= c.last < U64
    ensures var (c', pts, _) := Stamp(c, ts, now, base); Follows(c', base, ts, pts % U32)
  {
    if !Stamp(c, ts, now, base).2 {
      StampDiffers(c, ts, now, base);
    }
  }

  /** Two entries that follow the same clock keep their distance. */
  lemma FollowersKeepDistance(c: Clock, base: nat, ts: nat, stamp: nat, ts': nat, stamp': nat)
    requires Follows(c, base, ts, stamp) && Follows(c, base, ts', stamp')
    ensures (stamp' - stamp) % U32 == (ts' - ts) % U32
  {
    SameDistance(stamp, stamp', (c.offset - base) % U64 % U32, ts, ts', c.first);
  }

  /** Entries that were sent since the source last went back still follow the clock after the next frame. */
  lemma StillFollow(c: Clock, base: nat, h: seq<(Frame, Fate)>, f: Frame, now: nat, i: nat)
    requires AllFollow(c, base, h) && f.ts < U64 && i < |h|
    requires var (c', pts, _) := Stamp(c, f.ts, now, base); SentSince(h + [(f, Sent(pts % U32))], i)
    ensures Follows(Stamp(c, f.ts, now, base).0, base, h[i].0.ts, h[i].1.stamp)
  {
    var h' := h + [(f, Sent(Stamp(c, f.ts, now, base).1 % U32))];
    assert Rising(h, i, |h|) by {
      forall k, l | i <= k < l < |h| && h[k].1 != Dropped && h[l].1 != Dropped
        ensures h[k].0.ts < h[l].0.ts
      {
        assert h'[k] == h[k] && h'[l] == h[l];
      }
    }
    assert h'[i] == h[i] && SentSince(h, i);
    LastBefore(h, f, Stamp(c, f.ts, now, base).1 % U32, i);
  }

  lemma {:induction false} LastBefore(h: seq<(Frame, Fate)>, f: Frame, stamp: nat, i: nat)
    requires i < |h| && h[i].1 != Dropped && Rising(h + [(f, Sent(stamp))], i, |h| + 1)
    ensures LastTs(h) < f.ts
    decreases |h|
  {
    var h' := h + [(f, Sent(stamp))];
    assert h'[|h|] == (f, Sent(stamp)) && h'[|h| - 1] == h[|h| - 1];
    if h[|h| - 1].1 == Dropped {
      var rest := h[..|h| - 1];
      assert i < |rest|;
      forall k, l | i <= k < l <= |rest| && (rest + [(f, Sent(stamp))])[k].1 != Dropped
                    && (rest + [(f, Sent(stamp))])[l].1 != Dropped
        ensures (rest + [(f, Sent(stamp))])[k].0.ts < (rest + [(f, Sent(stamp))])[l].0.ts
      {
        assert h'[if l < |rest| then l else |h|].0.ts == (rest + [(f, Sent(stamp))])[l].0.ts;
        assert h'[k] == h[k];
      }
      LastBefore(rest, f, stamp, i);
    }
  }

  lemma StampFollowed(c: Clock, base: nat, h: seq<(Frame, Fate)>, f: Frame, now: nat)
    requires AllFollow(c, base, h) && f.ts < U64
    ensures var (c', pts, _) := Stamp(c, f.ts, now, base);
            AllFollow(c', base, h + [(f, Sent(pts % U32))])
  {
    var (c', pts, _) := Stamp(c, f.ts, now, base);
    var h' := h + [(f, Sent(pts % U32))];
    if f.ts > 0 {
      StampFollows(c, f.ts, now, base);
    }
    forall i: nat | SentSince(h', i)
      ensures Follows(c', base, h'[i].0.ts, h'[i].1.stamp)
    {
      if i < |h| {
        StillFollow(c, base, h, f, now, i);
      }
    }
  }

  lemma RisingPrefix(h: seq<(Frame, Fate)>, e: (Frame, Fate), i: nat, j: nat)
    requires j < |h|
    ensures Rising(h + [e], i, j) <==> Rising(h, i, j)
  {
    var h' := h + [e];
    assert forall k :: 0 <= k < |h| ==> h'[k] == h[k];
  }

  /** The next frame is stamped. */
  lemma StampKeeps(c: Clock, base: nat, h: seq<(Frame, Fate)>, f: Frame, now: nat)
    requires AllKeepDistance(h) && AllFollow(c, base, h) && f.ts < U64
    ensures var (c', pts, _) := Stamp(c, f.ts, now, base);
            var h' := h + [(f, Sent(pts % U32))];
            AllKeepDistance(h') && AllFollow(c', base, h')
  {
    var (c', pts, _) := Stamp(c, f.ts, now, base);
    StampFollowed(c, base, h, f, now);
    NextKeepsDistance(c', base, h, f, pts % U32);
  }

  lemma NextKeepsDistance(c: Clock, base: nat, h: seq<(Frame, Fate)>, f: Frame, stamp: nat)
    requires AllKeepDistance(h) && AllFollow(c, base, h + [(f, Sent(stamp))])
    ensures AllKeepDistance(h + [(f, Sent(stamp))])
  {
    var e := (f, Sent(stamp));
    var h' := h + [e];
    forall i, j | 0 <= i < j < |h'| && h'[i].1.Sent? && h'[j].1.Sent? && h'[i].0.ts > 0 && Rising(h', i, j)
      ensures KeepDistance(h', i, j)
    {
      if j < |h| {
        RisingPrefix(h, e, i, j);
        EarlierKeepsDistance(h, e, i, j);
      } else {
        LastKeepsDistance(c, base, h', i);
      }
    }
  }

  lemma EarlierKeepsDistance(h: seq<(Frame, Fate)>, e: (Frame, Fate), i: nat, j: nat)
    requires AllKeepDistance(h) && i < j < |h| && h[i].1.Sent? && h[j].1.Sent? && h[i].0.ts > 0 && Rising(h, i, j)
    ensures KeepDistance(h + [e], i, j)
  {
    assert KeepDistance(h, i, j);
    assert (h + [e])[i] == h[i] && (h + [e])[j] == h[j];
  }

  lemma LastKeepsDistance(c: Clock, base: nat, h: seq<(Frame, Fate)>, i: nat)
    requires AllFollow(c, base, h) && i < |h| - 1 && h[i].1.Sent? && h[|h| - 1].1.Sent?
    requires h[i].0.ts > 0 && Rising(h, i, |h| - 1)
    ensures KeepDistance(h, i, |h| - 1)
  {
    var f, stamp := h[|h| - 1].0, h[|h| - 1].1.stamp;
    assert Rising(h, i, |h|) && SentSince(h, i) && SentSince(h, |h| - 1);
    FollowersKeepDistance(c, base, h[i].0.ts, h[i].1.stamp, f.ts, stamp);
  }

  /** Entries that were sent after all may not have been, and dropped ones follow. */
  ghost predicate Weaker(h: seq<(Frame, Fate)>, h': seq<(Frame, Fate)>) {
    && |h| <= |h'|
    && (forall k :: 0 <= k < |h| ==> h'[k] == h[k] || (h'[k] == (h[k].0, Failed) && h[k].1.Sent?))
    && (forall k :: |h| <= k < |h'| ==> h'[k].1 == Dropped)
  }

  lemma WeakerRising(h: seq<(Frame, Fate)>, h': seq<(Frame, Fate)>, i: nat, j: nat, j': nat)
    requires Weaker(h, h') && Rising(h', i, j') && j <= j'
    ensures Rising(h, i, j)
  {
    forall k, l | i <= k < l <= j && l < |h| && h[k].1 != Dropped && h[l].1 != Dropped
      ensures h[k].0.ts < h[l].0.ts
    {
      assert h'[k].1 != Dropped && h'[l].1 != Dropped;
    }
  }

  /** A frame that is dropped or not sent after all changes nothing for the others. */
  lemma UnsentKeeps(c: Clock, base: nat, h: seq<(Frame, Fate)>, h': seq<(Frame, Fate)>)
    requires AllKeepDistance(h) && AllFollow(c, base, h) && Weaker(h, h') && LastTs(h') == LastTs(h)
    ensures AllKeepDistance(h') && AllFollow(c, base, h')
  {
    WeakerKeepsDistance(h, h');
    forall i: nat | SentSince(h', i)
      ensures Follows(c, base, h'[i].0.ts, h'[i].1.stamp)
    {
      WeakerRising(h, h', i, |h|, |h'|);
      assert SentSince(h, i);
    }
  }

  lemma WeakerKeepsDistance(h: seq<(Frame, Fate)>, h': seq<(Frame, Fate)>)
    requires AllKeepDistance(h) && Weaker(h, h')
    ensures AllKeepDistance(h')
  {
    forall i, j | 0 <= i < j < |h'| && h'[i].1.Sent? && h'[j].1.Sent? && h'[i].0.ts > 0 && Rising(h', i, j)
      ensures KeepDistance(h', i, j)
    {
      WeakerRising(h, h', i, j, j);
      assert KeepDistance(h, i, j);
    }
  }

  lemma PopClockOk(s: OutputState, now: nat, base: nat)
    requires ClockOk(s, base)
    ensures ClockOk(Step(s, Pop(now, base)), base)
  {
    var s' := Step(s, Pop(now, base));
    if s.exited || s.current.Some? || s.queue == [] {
      return;
    }
    var f := s.queue[0];
    assert History(s) == s.log;
    if !s.active || !s.running {
      assert History(s') == s.log + [(f, Dropped)] && (s.log + [(f, Dropped)])[..|s.log|] == s.log;
      UnsentKeeps(s.clock, base, s.log, s.log + [(f, Dropped)]);
    } else {
      StampKeeps(s.clock, base, s.log, f, now);
    }
  }

  lemma FinishClockOk(s: OutputState, ok: bool, base: nat)
    requires ClockOk(s, base)
    ensures ClockOk(Step(s, Finish(ok)), base)
  {
    if s.current.Some? {
      var h, h' := History(s), History(Step(s, Finish(ok)));
      if ok {
        assert h' == h;
      } else {
        assert h'[..|s.log|] == s.log == h[..|s.log|];
        UnsentKeeps(s.clock, base, h, h');
      }
    }
  }

  lemma StepClockOk(s: OutputState, e: Event, base: nat)
    requires ClockOk(s, base) && EventOk(e, base)
    ensures ClockOk(Step(s, e), base)
  {
    match e
    case Pop(now, _) => PopClockOk(s, now, base);
    case Finish(ok) => FinishClockOk(s, ok, base);
    case _ => assert History(Step(s, e)) == History(s);
  }

  lemma {:induction false} RunClockOk(s: OutputState, es: seq<Event>, base: nat)
    requires ClockOk(s, base) && forall k :: 0 <= k < |es| ==> EventOk(es[k], base)
    ensures ClockOk(Run(s, es), base)
    decreases |es|
  {
    if es != [] {
      StepClockOk(s, es[0], base);
      RunClockOk(Step(s, es[0]), es[1..], base);
    }
  }

  /** Under every interleaving of producer and worker: when two frames were sent and the source only advanced
      from the one to the other, their 32-bit RTP timestamps differ by exactly the difference of their
      source timestamps modulo 2^32. (A source that goes back, or starts at 0, anchors the clock anew.) */
  lemma TimestampsKeepDistance(es: seq<Event>, base: nat, i: nat, j: nat)
    requires forall k :: 0 <= k < |es| ==> EventOk(es[k], base)
    requires var log := Run(FRESH, es).log;
             i < j < |log| && log[i].1.Sent? && log[j].1.Sent? && log[i].0.ts > 0 && Rising(log, i, j)
    ensures var log := Run(FRESH, es).log;
            (log[j].1.stamp - log[i].1.stamp) % U32 == (log[j].0.ts - log[i].0.ts) % U32
  {
    FreshClockOk(base);
    RunClockOk(FRESH, es, base);
    LogKeepsDistance(Run(FRESH, es), base, i, j);
  }

  lemma FreshClockOk(base: nat)
    ensures ClockOk(FRESH, base)
  {
    assert History(FRESH) == [];
  }

  lemma LogKeepsDistance(s: OutputState, base: nat, i: nat, j: nat)
    requires ClockOk(s, base) && i < j < |s.log|
    requires s.log[i].1.Sent? && s.log[j].1.Sent? && s.log[i].0.ts > 0 && Rising(s.log, i, j)
    ensures KeepDistance(s.log, i, j)
  {
    if s.current.Some? {
      RisingPrefix(s.log, (s.current.value.0, Sent(s.current.value.1 % U32)), i, j);
    } else {
      assert History(s) == s.log;
    }
    assert KeepDistance(History(s), i, j);
  }

  // ----- the class -----

  class Output {
    var running: bool
    var active: bool
    var exited: bool
    var numSent: nat
    var inQueue: seq<Frame>
    var clock: Clock
    var passed: Option<Frame>
    var current: Option<(Frame, nat)>
    ghost var log: seq<(Frame, Fate)>

    ghost function State(): OutputState
      reads this
    {
      OutputState(running, active, exited, numSent, inQueue, clock, passed, current, log)
    }

    constructor ()
      ensures State() == FRESH
    {
      running, active, exited, numSent, inQueue := true, true, false, 0, [];
      clock, passed, current, log := Clock(0, 0, 0), None, None, [];
    }

    /** The body of the loop over the outputs in `onEncodedFrame`, up to the unlocked push. */
    method OfferFrame(f: Frame, initComplete: bool, open: bool)
      requires passed.None?
      modifies this`passed
      ensures State() == Step(old(State()), Offer(f, initComplete, open))
    {
      if !running {
        return;
      }
      if numSent == 0 && !f.key {
        return;
      }
      if !initComplete {
        return;
      }
      if !open {
        return;
      }
      passed := Some(f);
    }

    method PushFrame()
      requires passed.Some?
      modifies this`passed, this`inQueue
      ensures State() == Step(old(State()), Push)
    {
      inQueue := inQueue + [passed.value];
      passed := None;
    }

    /** The worker's loop up to `sendFrame`. */
    method PopFrame(now: nat, base: nat)
      requires !exited && current.None? && inQueue != []
      modifies this`inQueue, this`clock, this`current, this`log
      ensures State() == Step(old(State()), Pop(now, base))
    {
      var frame := inQueue[0];
      inQueue := inQueue[1..];
      if !active || !running {
        log := log + [(frame, Dropped)];
        return;
      }
      if frame.ts <= clock.last {
        clock := clock.(first := 0);
      }
      clock := clock.(last := frame.ts);
      var pts: nat;
      if clock.first == 0 {
        clock := clock.(first := frame.ts, offset := now);
        pts := (clock.offset - base) % U64;
      } else {
        pts := ((frame.ts - clock.first) % U64 + clock.offset - base) % U64;
      }
      current := Some((frame, pts));
    }

    method FinishFrame(ok: bool)
      requires current.Some?
      modifies this`current, this`numSent, this`log
      ensures State() == Step(old(State()), Finish(ok))
    {
      if ok {
        numSent := (numSent + 1) % 0x1_0000;
      }
      log := log + [(current.value.0, if ok then Sent(current.value.1 % U32) else Failed)];
      current := None;
    }

    method RemoveOutput()
      modifies this`active
      ensures State() == Step(old(State()), Remove)
    {
      active := false;
    }
  }

  // ----- convertToRtpTimestamp -----

  /** `convertToRtpTimestamp`, with the wrap-around of its 64-bit products. */
  function ToRtp(sec: int, nanosec: nat): nat {
    var ns := ((sec % U64) * 1_000_000_000 % U64 + nanosec) % U64;
    ns * 90_000 % U64 / 1_000_000_000
  }

  /** The conversion is exact precisely from 0 to 204963823041217 nanoseconds (about 2.4 days); later times
      and negative ones wrap around. */
  lemma RtpExactIff(sec: int, nanosec: nat)
    requires -0x8000_0000 <= sec < 0x8000_0000 && nanosec < U32
    ensures var ns := sec * 1_000_000_000 + nanosec;
            ToRtp(sec, nanosec) == ns * 90_000 / 1_000_000_000 <==> 0 <= ns <= 204_963_823_041_217
  {
    var ns := sec * 1_000_000_000 + nanosec;
    TotalNs(sec, nanosec);
    if ns < 0 {
      assert ns * 90_000 / 1_000_000_000 < 0;
      return;
    }
    assert ns % U64 == ns;
    var x := ns * 90_000;
    if ns <= 204_963_823_041_217 {
      assert x % U64 == x;
    } else {
      WrapsBelow(x);
    }
  }

  /** The sum of seconds and nanoseconds in 64 bits. */
  lemma TotalNs(sec: int, nanosec: nat)
    requires -0x8000_0000 <= sec < 0x8000_0000 && nanosec < U32
    ensures ((sec % U64) * 1_000_000_000 % U64 + nanosec) % U64 == (sec * 1_000_000_000 + nanosec) % U64
  {
    var a := sec * 1_000_000_000;
    assert (sec % U64) * 1_000_000_000 % U64 == a % U64 by {
      if sec < 0 {
        assert sec % U64 == sec + U64;
        ModShift(a, 1_000_000_000, U64);
      }
    }
    assert a == U64 * (a / U64) + a % U64;
    ModShift(a % U64 + nanosec, a / U64, U64);
  }

  lemma WrapsBelow(x: nat)
    requires x >= U64
    ensures x % U64 / 1_000_000_000 < x / 1_000_000_000
  {
    var r := x % U64;
    if x >= 2 * U64 {
      assert x / 1_000_000_000 > U64 / 1_000_000_000;
    } else {
      assert r == x - U64;
      assert x / 1_000_000_000 >= U64 / 1_000_000_000;
    }
  }
}
