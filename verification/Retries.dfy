/** That a lost connection is made again (sioclient/internal/sio_client_impl.cpp): when a timer is armed, how
    many attempts there are, and how long each waits. */
module Retries {
  import opened Options
  import opened SioPacket
  import opened SioStream
  import opened SioClient

  // ----- the delay, in whole numbers -----

  function Power(base: nat, n: nat): nat {
    if n == 0 then 1 else base * Power(base, n - 1)
  }

  lemma {:induction false} Positive(base: nat, n: nat)
    requires base > 0
    ensures Power(base, n) > 0
  {
    if n > 0 {
      Positive(base, n - 1);
      assert base * Power(base, n - 1) > 0;
    }
  }

  lemma {:induction false} Pow15Is(n: nat)
    ensures Pow15(n) * Power(2, n) as real == Power(3, n) as real
  {
    if n > 0 {
      Pow15Is(n - 1);
      var x, p, q := Pow15(n - 1), Power(2, n - 1) as real, Power(3, n - 1) as real;
      assert Power(2, n) as real == 2.0 * p && Power(3, n) as real == 3.0 * q;
      assert 1.5 * x * (2.0 * p) == 3.0 * (x * p);
    }
  }

  lemma FloorIs(x: real, d: nat, p: nat)
    requires p > 0 && x * p as real == d as real
    ensures x.Floor == d / p
  {
    var q, r := d / p, d % p;
    assert d == q * p + r && d as real == q as real * p as real + r as real;
    Share(x, q as real, p as real, r as real);
  }

  /** The quotient is within one of the real number. */
  lemma Share(x: real, q: real, p: real, r: real)
    requires p > 0.0 && 0.0 <= r < p && x * p == q * p + r
    ensures q <= x < q + 1.0
  {
    assert (x - q) * p == x * p - q * p == r;
    assert (x - q - 1.0) * p == (x - q) * p - p;
    SignOf(x - q, p);
    SignOf(x - q - 1.0, p);
  }

  lemma SignOf(a: real, b: real)
    requires b > 0.0
    ensures a * b >= 0.0 <==> a >= 0.0
  {
  }

  lemma GrownIs(delay: nat, n: nat)
    ensures Power(2, n) > 0 && Grown(delay, n).Floor == delay * Power(3, n) / Power(2, n)
  {
    Positive(2, n);
    Pow15Is(n);
    Scaled(delay, Pow15(n), Power(2, n), Power(3, n));
    FloorIs(Grown(delay, n), delay * Power(3, n), Power(2, n));
  }

  lemma Scaled(delay: nat, x: real, p: nat, q: nat)
    requires x * p as real == q as real
    ensures delay as real * x * p as real == (delay * q) as real
  {
    assert delay as real * x * p as real == delay as real * (x * p as real);
  }

  /** The delay before a reconnect: the smaller delay, half as much again for each failed attempt, of which at
      most 32 count, in whole milliseconds, and never more than the larger one. */
  lemma NextDelayIs(delay: nat, delayMax: nat, made: nat)
    ensures var n := if made < 32 then made else 32;
            Power(2, n) > 0 &&
            var d := delay * Power(3, n) / Power(2, n);
            NextDelay(delay, delayMax, made) == if d < delayMax then d else delayMax
  {
    GrownIs(delay, if made < 32 then made else 32);
  }

  /** The two setters: the one called last is obeyed, so that their order matters exactly when the smaller delay
      is asked to be above the larger one. */
  lemma SettersInTurn(t: JsonText, s: ClientState, d: nat, m: nat)
    ensures var r := Step(t, Step(t, s, SetDelay(d)).0, SetDelayMax(m)).0;
            r == s.(delay := if d < m then d else m, delayMax := m)
    ensures var r := Step(t, Step(t, s, SetDelayMax(m)).0, SetDelay(d)).0;
            r == s.(delay := d, delayMax := if d < m then m else d)
  {
  }

  // ----- a client that goes on -----

  /** Anything but `close` and a close code that says normal. */
  predicate GoesOn(e: Event) {
    e != Close && e != OnClose(true)
  }

  ghost predicate Going(s: ClientState) {
    && s.thread && !s.abort && s.con != Closing && s.made <= s.attempts
    && (s.armed ==> s.made < s.attempts)
    && (s.con == Closed && s.made < s.attempts ==> s.armed)
  }

  lemma StepGoing(t: JsonText, s: ClientState, e: Event)
    requires Going(s) && GoesOn(e)
    ensures Going(Step(t, s, e).0) && Step(t, s, e).0.attempts == s.attempts
  {
  }

  lemma {:induction false} RunGoing(t: JsonText, s: ClientState, es: seq<Event>)
    requires Going(s) && forall e :: e in es ==> GoesOn(e)
    ensures Going(Run(t, s, es).0) && Run(t, s, es).0.attempts == s.attempts
    decreases |es|
  {
    if es != [] {
      assert es[0] in es;
      StepGoing(t, s, es[0]);
      RunGoing(t, Step(t, s, es[0]).0, es[1..]);
    }
  }

  lemma ConnectedGoing(t: JsonText, s: ClientState, validUri: bool, es: seq<Event>)
    requires CanConnect(s) && forall e :: e in es ==> GoesOn(e)
    ensures var end := Run(t, s, [Connect(validUri)] + es).0;
            Going(end) && end.attempts == s.attempts
  {
    RunFirst(t, s, Connect(validUri), es);
    RunGoing(t, Step(t, s, Connect(validUri)).0, es);
  }

  /** In every run from a `connect`, in any order of events but without `close` and without a normal close: a
      client that is closed and has attempts left has its timer armed, so that it never gives up early. */
  lemma ClosedIsRetried(t: JsonText, s: ClientState, validUri: bool, es: seq<Event>)
    requires CanConnect(s) && forall e :: e in es ==> GoesOn(e)
    ensures var end := Run(t, s, [Connect(validUri)] + es).0;
            end.con == Closed && end.made < s.attempts ==> end.armed
  {
    ConnectedGoing(t, s, validUri, es);
  }

  /** What such a client does when it loses its connection: with attempts left it tells the delay, and when the
      timer fires it attempts once; with none left it tells the close listener that the connection dropped. */
  lemma LossIsRetried(t: JsonText, s: ClientState, validUri: bool, es: seq<Event>)
    requires CanConnect(s) && forall e :: e in es ==> GoesOn(e)
    ensures var end := Run(t, s, [Connect(validUri)] + es).0;
            end.made < s.attempts ==>
              var (r, out) := Run(t, end, [OnClose(false), TimerFires(true)]);
              && out == [ReconnectListener(end.made, NextDelay(end.delay, end.delayMax, end.made)),
                         ReconnectingListener, Attempt]
              && r.con == Opening && r.made == end.made + 1
    ensures var end := Run(t, s, [Connect(validUri)] + es).0;
            end.made == s.attempts ==>
              var (r, out) := Run(t, end, [OnClose(false), TimerFires(true)]);
              out == [CloseListener(true)] && r.con == Closed && r.made == end.made
  {
    var end := Run(t, s, [Connect(validUri)] + es).0;
    ConnectedGoing(t, s, validUri, es);
    RunBoth(t, end, OnClose(false), TimerFires(true));
  }

  lemma RunBoth(t: JsonText, s: ClientState, e: Event, f: Event)
    ensures var (s1, o1) := Step(t, s, e);
            var (s2, o2) := Step(t, s1, f);
            Run(t, s, [e, f]) == (s2, o1 + o2)
  {
    RunFirst(t, s, e, [f]);
    RunFirst(t, Step(t, s, e).0, f, []);
    var o2 := Step(t, Step(t, s, e).0, f).1;
    assert [e] + [f] == [e, f] && [f] + [] == [f] && o2 + [] == o2;
  }

  /** A connection that opens gives all attempts back, however many failed before, and a `connect` does nothing
      while it lasts. When it is lost, and no attempt succeeds after that and nobody calls `connect` or
      `close`: there are never more reconnects than the limit; if every attempt has a valid URI it is over
      exactly after a start and a failure for each of them, with as many reconnects as the limit and one call
      of the fail listener, unless the limit is 0. */
  lemma OpeningGivesBack(t: JsonText, s: ClientState, validUri: bool, es: seq<Event>, more: seq<Event>)
    requires CanConnect(s) && forall e :: e in es ==> GoesOn(e)
    requires var open := Step(t, Run(t, s, [Connect(validUri)] + es).0, OnOpen).0;
             FailsOnly(t, Step(t, open, OnClose(false)).0, false, more)
    ensures var open := Step(t, Run(t, s, [Connect(validUri)] + es).0, OnOpen).0;
            && open.con == Opened && open.made == 0
            && forall again :: Step(t, open, Connect(again)).0.con == Opened && Step(t, open, Connect(again)).1 == []
    ensures var open := Step(t, Run(t, s, [Connect(validUri)] + es).0, OnOpen).0;
            var lost := Step(t, open, OnClose(false)).0;
            var (end, out) := Run(t, lost, more);
            var over := Over(end, FlyingAfter(t, lost, false, more));
            && CountReconnects(out) == end.made <= s.attempts
            && (AllValid(t, lost, more) ==>
                  && (over <==> Turns(t, lost, more) == 2 * s.attempts)
                  && (over ==> end.con == Closed && end.made == s.attempts))
            && CountFails(out) == if over && s.attempts > 0 then 1 else 0
  {
    var w := Run(t, s, [Connect(validUri)] + es).0;
    var open := Step(t, w, OnOpen).0;
    var lost := Step(t, open, OnClose(false)).0;
    ConnectedGoing(t, s, validUri, es);
    StepGoing(t, w, OnOpen);
    LostTries(t, open);
    RunTries(t, lost, false, more);
    RunFailsOnce(t, lost, false, more);
    ReconnectsFromClosed(t, lost, more);
    EndTells(t, Run(t, lost, more).0, FlyingAfter(t, lost, false, more));
  }

  lemma LostTries(t: JsonText, open: ClientState)
    requires Going(open) && open.con == Opened && open.made == 0
    ensures var lost := Step(t, open, OnClose(false)).0;
            && Trying(lost, false) && lost.made == 0 && lost.attempts == open.attempts
            && !Stuck(lost, false) && TurnsLeft(lost, false) == 2 * open.attempts
            && Fails(lost, false) == if open.attempts > 0 then 0 else 1
  {
  }

  // ----- a close that was asked for -----

  lemma {:induction false} ClosingStays(t: JsonText, s: ClientState, es: seq<Event>)
    requires s.con == Closing && forall e :: e in es ==> !e.Connect? && !e.OnClose?
    ensures Run(t, s, es).0.con == Closing
    decreases |es|
  {
    if es != [] {
      assert es[0] in es;
      ClosingStays(t, Step(t, s, es[0]).0, es[1..]);
    }
  }

  /** After `close`, whatever comes first: the next close of the connection is told as a normal one, whatever
      its code, and none before it. */
  lemma CloseIsToldNormal(t: JsonText, s: ClientState, es: seq<Event>, normal: bool)
    requires forall e :: e in es ==> !e.Connect? && !e.OnClose?
    ensures var end := Run(t, Step(t, s, Close).0, es).0;
            Step(t, end, OnClose(normal)).1 == [CloseListener(false)] && Step(t, end, OnClose(normal)).0.con == Closed
  {
    ClosingStays(t, Step(t, s, Close).0, es);
  }
}
