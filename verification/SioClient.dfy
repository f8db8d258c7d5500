/** Connection states, reconnecting and back-off of the Socket.IO client
    (sioclient/internal/sio_client_impl.cpp and .h). */
module SioClient {
  import opened Options
  import opened SioPacket
  import opened SioStream

  datatype ConState = Opening | Opened | Closing | Closed

  /** `armed` says that `m_reconn_timer` waits; `thread` that there is a network thread. */
  datatype ClientState = ClientState(
    con: ConState, made: nat, armed: bool, abort: bool, thread: bool,
    attempts: nat, delay: nat, delayMax: nat, partial: Option<PacketState>)

  /** What the client shows to its surroundings. */
  datatype Output =
    | Attempt                               // connect_impl
    | FailListener
    | ReconnectListener(made: nat, delay: nat)
    | ReconnectingListener
    | CloseListener(drop: bool)
    | Delivered(packet: PacketState)

  datatype Event =
    | Connect(validUri: bool)
    | Close
    | OnOpen
    | OnFail
    | OnClose(normal: bool)
    | TimerFires(validUri: bool)
    | Payload(text: string)
    | SetDelay(millis: nat)
    | SetDelayMax(millis: nat)

  // ----- next_delay -----

  function Pow15(n: nat): (r: real)
    ensures r >= 1.0
  {
    if n == 0 then 1.0 else 1.5 * Pow15(n - 1)
  }

  /** `next_delay`, over ideal reals. */
  function NextDelay(delay: nat, delayMax: nat, made: nat): nat {
    Clamp(Grown(delay, if made < 32 then made else 32), delayMax)
  }

  function Grown(delay: nat, n: nat): (r: real)
    ensures r >= delay as real
  {
    delay as real * Pow15(n)
  }

  function Clamp(x: real, max: nat): nat
    requires x >= 0.0
  {
    if x < max as real then x.Floor else max
  }

  lemma {:induction false} Pow15Grows(m: nat, n: nat)
    requires m <= n
    ensures Pow15(m) <= Pow15(n)
    decreases n
  {
    if m < n {
      Pow15Grows(m, n - 1);
    }
  }

  lemma GrownGrows(delay: nat, m: nat, n: nat)
    requires m <= n
    ensures Grown(delay, m) <= Grown(delay, n) && Grown(delay, 0) == delay as real
  {
    Pow15Grows(m, n);
  }

  lemma ClampGrows(delay: nat, max: nat, x: real, y: real)
    requires delay <= max && delay as real <= x <= y
    ensures delay <= Clamp(x, max) <= Clamp(y, max) <= max
    ensures Clamp(delay as real, max) == delay
  {
  }

  /** The back-off stays between the two configured delays, never decreases with the number of
      failures, starts at the smaller delay, and no longer changes from 32 failures on. */
  lemma BackOffBounded(delay: nat, delayMax: nat, made: nat, later: nat)
    requires delay <= delayMax && made <= later
    ensures delay <= NextDelay(delay, delayMax, made) <= NextDelay(delay, delayMax, later) <= delayMax
    ensures made >= 32 ==> NextDelay(delay, delayMax, made) == NextDelay(delay, delayMax, later)
    ensures NextDelay(delay, delayMax, 0) == delay
  {
    var m := if made < 32 then made else 32;
    var n := if later < 32 then later else 32;
    GrownGrows(delay, m, n);
    ClampGrows(delay, delayMax, Grown(delay, m), Grown(delay, n));
  }

  // ----- what each event does -----

  function Retries(s: ClientState): bool {
    s.made < s.attempts && !s.abort
  }

  function Arm(s: ClientState): (ClientState, seq<Output>) {
    (s.(armed := true), [ReconnectListener(s.made, NextDelay(s.delay, s.delayMax, s.made))])
  }

  function ConnectOutputs(validUri: bool): seq<Output> {
    if validUri then [Attempt] else [Attempt, FailListener]
  }

  function Shut(s: ClientState): ClientState {
    s.(con := Closing, abort := true, armed := false)
  }

  function Step(t: JsonText, s: ClientState, e: Event): (ClientState, seq<Output>) {
    match e
    case Connect(validUri) =>
      if s.thread && (s.con == Opening || s.con == Opened) then (s.(armed := false), [])
      else (s.(con := Opening, made := 0, armed := false, abort := false, thread := true, partial := None),
            ConnectOutputs(validUri))
    case Close => (Shut(s), [])
    case OnOpen =>
      if s.con == Closing then (Shut(s), []) else (s.(con := Opened, made := 0), [])
    case OnFail =>
      if s.con == Closing then (Shut(s), [])
      else
        var c := s.(con := Closed);
        if Retries(s) then Arm(c) else (c, [FailListener])
    case OnClose(normal) =>
      var c := s.(con := Closed);
      if normal || s.con == Closing then (c, [CloseListener(false)])
      else if Retries(s) then Arm(c)
      else (c, [CloseListener(true)])
    case TimerFires(validUri) =>
      if !s.armed then (s, [])
      else if s.con == Closed then
        (s.(con := Opening, made := s.made + 1, armed := false, partial := None),
         [ReconnectingListener] + ConnectOutputs(validUri))
      else (s.(armed := false), [])
    case Payload(text) =>
      var r := Put(t, s.partial, text);
      (s.(partial := r.partial), if r.delivered == [] then [] else [Delivered(r.delivered[0])])
    case SetDelay(millis) =>
      (s.(delay := millis, delayMax := if s.delayMax < millis then millis else s.delayMax), [])
    case SetDelayMax(millis) =>
      (s.(delayMax := millis, delay := if s.delay > millis then millis else s.delay), [])
  }

  function Run(t: JsonText, s: ClientState, es: seq<Event>): (ClientState, seq<Output>)
    decreases |es|
  {
    if es == [] then (s, [])
    else
      var (s1, o1) := Step(t, s, es[0]);
      var (s2, o2) := Run(t, s1, es[1..]);
      (s2, o1 + o2)
  }

  // ----- the class -----

  class ClientImpl {
    const packets: PacketManager
    var con: ConState
    var made: nat
    var armed: bool
    var abort: bool
    var thread: bool
    var attempts: nat
    var delay: nat
    var delayMax: nat

    function State(): ClientState
      reads this, packets, packets.partial
    {
      ClientState(con, made, armed, abort, thread, attempts, delay, delayMax, packets.Partial())
    }

    constructor (json: JsonText, attempts: nat)
      ensures fresh(packets) && packets.json == json
      ensures State() == ClientState(Closed, 0, false, false, false, attempts, 5000, 25000, None)
    {
      packets := new PacketManager(json);
      con, made, armed, abort, thread := Closed, 0, false, false, false;
      this.attempts, delay, delayMax := attempts, 5000, 25000;
    }

    method SetReconnectDelay(millis: nat)
      modifies this`delay, this`delayMax
      ensures (State(), []) == Step(packets.json, old(State()), SetDelay(millis))
    {
      delay := millis;
      if delayMax < millis {
        delayMax := millis;
      }
    }

    method SetReconnectDelayMax(millis: nat)
      modifies this`delay, this`delayMax
      ensures (State(), []) == Step(packets.json, old(State()), SetDelayMax(millis))
    {
      delayMax := millis;
      if delay > millis {
        delay := millis;
      }
    }

    method ResetStates()
      modifies packets`partial
      ensures packets.Partial() == None
    {
      packets.Reset();
    }

    method ConnectTo(validUri: bool) returns (out: seq<Output>)
      modifies this`con, this`made, this`armed, this`abort, this`thread, packets`partial
      ensures (State(), out) == Step(packets.json, old(State()), Connect(validUri))
    {
      armed := false;
      if thread {
        if con == Closing || con == Closed {
          thread := false;
        } else {
          return [];
        }
      }
      con := Opening;
      made := 0;
      ResetStates();
      abort := false;
      out := ConnectImpl(validUri);
      thread := true;
    }

    method ConnectImpl(validUri: bool) returns (out: seq<Output>)
      ensures out == ConnectOutputs(validUri)
    {
      out := [Attempt];
      if !validUri {
        out := out + [FailListener];
      }
    }

    method CloseClient()
      modifies this`con, this`abort, this`armed
      ensures (State(), []) == Step(packets.json, old(State()), Close)
    {
      con := Closing;
      abort := true;
      armed := false;
    }

    method HandleOpen()
      modifies this`con, this`abort, this`armed, this`made
      ensures (State(), []) == Step(packets.json, old(State()), OnOpen)
    {
      if con == Closing {
        CloseClient();
        return;
      }
      con := Opened;
      made := 0;
    }

    method ArmTimer() returns (out: seq<Output>)
      modifies this`armed
      ensures (State(), out) == Arm(old(State()))
    {
      out := [ReconnectListener(made, NextDelay(delay, delayMax, made))];
      armed := true;
    }

    method HandleFail() returns (out: seq<Output>)
      modifies this`con, this`abort, this`armed
      ensures (State(), out) == Step(packets.json, old(State()), OnFail)
    {
      if con == Closing {
        CloseClient();
        return [];
      }
      con := Closed;
      if made < attempts && !abort {
        out := ArmTimer();
      } else {
        out := [FailListener];
      }
    }

    method HandleClose(normal: bool) returns (out: seq<Output>)
      modifies this`con, this`armed
      ensures (State(), out) == Step(packets.json, old(State()), OnClose(normal))
    {
      var was := con;
      con := Closed;
      if normal || was == Closing {
        return [CloseListener(false)];
      }
      if made < attempts && !abort {
        out := ArmTimer();
        return;
      }
      out := [CloseListener(true)];
    }

    method TimeoutReconnect(validUri: bool) returns (out: seq<Output>)
      requires armed
      modifies this`con, this`armed, this`made, packets`partial
      ensures (State(), out) == Step(packets.json, old(State()), TimerFires(validUri))
    {
      armed := false;
      out := [];
      if con == Closed {
        con := Opening;
        made := made + 1;
        ResetStates();
        out := [ReconnectingListener];
        var more := ConnectImpl(validUri);
        out := out + more;
      }
    }

    method OnMessage(text: string) returns (out: seq<Output>)
      modifies packets`partial, packets.partial
      ensures (State(), out) == Step(packets.json, old(State()), Payload(text))
    {
      var delivered, thrown := packets.PutPayload(text);
      out := if delivered == [] then [] else [Delivered(delivered[0])];
    }
  }

  // ----- every run -----

  ghost predicate ClientOk(s: ClientState) {
    s.made <= s.attempts && (s.armed ==> s.made < s.attempts) && s.delay <= s.delayMax
  }

  lemma StepLimit(t: JsonText, s: ClientState, e: Event)
    requires ClientOk(s)
    ensures ClientOk(Step(t, s, e).0) && Step(t, s, e).0.attempts == s.attempts
    ensures forall o :: o in Step(t, s, e).1 && o.ReconnectListener? ==> o.made < s.attempts
  {
  }

  /** The limit holds in every run, whatever the order of events: never more reconnects in a row than
      allowed, and the timer only waits for one that is still allowed. */
  lemma {:induction false} LimitKept(t: JsonText, s: ClientState, es: seq<Event>)
    requires ClientOk(s)
    ensures ClientOk(Run(t, s, es).0) && Run(t, s, es).0.attempts == s.attempts
    ensures forall o :: o in Run(t, s, es).1 && o.ReconnectListener? ==> o.made < s.attempts
    decreases |es|
  {
    if es != [] {
      StepLimit(t, s, es[0]);
      LimitKept(t, Step(t, s, es[0]).0, es[1..]);
    }
  }

  predicate IsConnect(e: Event) {
    e.Connect?
  }

  /** After `close`, no attempt starts and no timer is armed until the next `connect`. */
  lemma {:induction false} CloseStopsReconnecting(t: JsonText, s: ClientState, es: seq<Event>)
    requires forall e :: e in es ==> !IsConnect(e)
    ensures var (end, out) := Run(t, Step(t, s, Close).0, es);
            !end.armed && end.abort && ReconnectingListener !in out && Attempt !in out
  {
    AbortedStays(t, Step(t, s, Close).0, es);
  }

  lemma {:induction false} AbortedStays(t: JsonText, s: ClientState, es: seq<Event>)
    requires !s.armed && s.abort
    requires forall e :: e in es ==> !IsConnect(e)
    ensures var (end, out) := Run(t, s, es);
            !end.armed && end.abort && ReconnectingListener !in out && Attempt !in out
    decreases |es|
  {
    if es != [] {
      assert es[0] in es;
      AbortedStays(t, Step(t, s, es[0]).0, es[1..]);
    }
  }

  // ----- counting outputs -----

  function CountReconnects(out: seq<Output>): nat {
    if out == [] then 0 else (if out[0] == ReconnectingListener then 1 else 0) + CountReconnects(out[1..])
  }

  function CountFails(out: seq<Output>): nat {
    if out == [] then 0 else (if out[0] == FailListener then 1 else 0) + CountFails(out[1..])
  }

  lemma {:induction false} CountsAppend(a: seq<Output>, b: seq<Output>)
    ensures CountReconnects(a + b) == CountReconnects(a) + CountReconnects(b)
    ensures CountFails(a + b) == CountFails(a) + CountFails(b)
    decreases |a|
  {
    if a == [] {
      assert a + b == b;
    } else {
      assert (a + b)[1..] == a[1..] + b;
      CountsAppend(a[1..], b);
    }
  }

  lemma OneOutput(o: Output)
    ensures CountReconnects([o]) == (if o == ReconnectingListener then 1 else 0)
    ensures CountFails([o]) == (if o == FailListener then 1 else 0)
  {
    assert [o][1..] == [];
  }

  // ----- where reconnects come from -----

  /** How often in a run the timer fires while the client is in `con_closed`. */
  function FiresClosed(t: JsonText, s: ClientState, es: seq<Event>): nat
    decreases |es|
  {
    if es == [] then 0
    else
      (if es[0].TimerFires? && s.armed && s.con == Closed then 1 else 0) + FiresClosed(t, Step(t, s, es[0]).0, es[1..])
  }

  lemma StepReconnects(t: JsonText, s: ClientState, e: Event)
    ensures CountReconnects(Step(t, s, e).1) == if e.TimerFires? && s.armed && s.con == Closed then 1 else 0
    ensures e.TimerFires? && s.armed && s.con == Closed ==>
              Step(t, s, e).0.made == s.made + 1 && Step(t, s, e).0.con == Opening && Step(t, s, e).0.partial == None
  {
    var out := Step(t, s, e).1;
    if out != [] {
      OneOutput(out[0]);
      CountsAppend([out[0]], out[1..]);
      assert out == [out[0]] + out[1..];
      if |out| > 1 {
        NoReconnects(out[1..]);
      }
    }
  }

  lemma {:induction false} NoReconnects(out: seq<Output>)
    requires ReconnectingListener !in out
    ensures CountReconnects(out) == 0
  {
    if out != [] {
      NoReconnects(out[1..]);
    }
  }

  lemma {:induction false} ReconnectsFromClosed(t: JsonText, s: ClientState, es: seq<Event>)
    ensures CountReconnects(Run(t, s, es).1) == FiresClosed(t, s, es)
    decreases |es|
  {
    if es != [] {
      var (s1, o1) := Step(t, s, es[0]);
      StepReconnects(t, s, es[0]);
      ReconnectsFromClosed(t, s1, es[1..]);
      CountsAppend(o1, Run(t, s1, es[1..]).1);
    }
  }

  /** How often an attempt fails or a connection is lost. */
  function Losses(es: seq<Event>): nat {
    if es == [] then 0 else (if es[0] == OnFail || es[0] == OnClose(false) then 1 else 0) + Losses(es[1..])
  }

  lemma {:induction false} FiringsAreOwed(t: JsonText, s: ClientState, es: seq<Event>)
    ensures FiresClosed(t, s, es) + (if Run(t, s, es).0.armed then 1 else 0) <= Losses(es) + if s.armed then 1 else 0
    decreases |es|
  {
    if es != [] {
      FiringsAreOwed(t, Step(t, s, es[0]).0, es[1..]);
    }
  }

  /** Every reconnect, and a timer that waits for one, is owed to a failed attempt or a lost connection of its
      own: no run reconnects more often than that, but for a timer that was armed at its start. */
  lemma ReconnectsAreOwed(t: JsonText, s: ClientState, es: seq<Event>)
    ensures var (end, out) := Run(t, s, es);
            CountReconnects(out) + (if end.armed then 1 else 0) <= Losses(es) + if s.armed then 1 else 0
  {
    ReconnectsFromClosed(t, s, es);
    FiringsAreOwed(t, s, es);
  }

  // ----- runs in which every attempt fails -----

  /** The event starts an attempt. */
  predicate Fires(s: ClientState, e: Event) {
    e.TimerFires? && s.armed && s.con == Closed
  }

  /** Whether an attempt is under way after an event: `connect_impl` starts none for an invalid URI. */
  predicate Flying(s: ClientState, flying: bool, e: Event) {
    if Fires(s, e) then e.validUri else flying && !e.OnFail?
  }

  /** An attempt that is under way may fail; none succeeds, and nobody calls `connect` or `close`. */
  predicate MayHappen(flying: bool, e: Event) {
    e.TimerFires? || e.Payload? || e.SetDelay? || e.SetDelayMax? || (e.OnFail? && flying)
  }

  predicate FailsOnly(t: JsonText, s: ClientState, flying: bool, es: seq<Event>)
    decreases |es|
  {
    es == [] ||
    (MayHappen(flying, es[0]) && FailsOnly(t, Step(t, s, es[0]).0, Flying(s, flying, es[0]), es[1..]))
  }

  predicate FlyingAfter(t: JsonText, s: ClientState, flying: bool, es: seq<Event>)
    decreases |es|
  {
    if es == [] then flying else FlyingAfter(t, Step(t, s, es[0]).0, Flying(s, flying, es[0]), es[1..])
  }

  /** Every attempt that a run starts has a valid URI. */
  predicate AllValid(t: JsonText, s: ClientState, es: seq<Event>)
    decreases |es|
  {
    es == [] || ((Fires(s, es[0]) ==> es[0].validUri) && AllValid(t, Step(t, s, es[0]).0, es[1..]))
  }

  /** How many attempts start or fail in a run. */
  function Turns(t: JsonText, s: ClientState, es: seq<Event>): nat
    decreases |es|
  {
    if es == [] then 0
    else (if Fires(s, es[0]) || es[0].OnFail? then 1 else 0) + Turns(t, Step(t, s, es[0]).0, es[1..])
  }

  /** Nothing is under way and nothing will be. */
  predicate Over(s: ClientState, flying: bool) {
    !s.armed && !flying
  }

  /** It is over because the URI was invalid: the client seems to connect. */
  predicate Stuck(s: ClientState, flying: bool) {
    s.con == Opening && !flying
  }

  ghost predicate Trying(s: ClientState, flying: bool) {
    && s.thread && !s.abort && s.made <= s.attempts && (s.con == Opening || s.con == Closed)
    && (flying ==> s.con == Opening) && (s.armed <==> s.con == Closed && s.made < s.attempts)
  }

  /** The starts and failures that are still to come. */
  function TurnsLeft(s: ClientState, flying: bool): nat
    requires s.made <= s.attempts
  {
    if Over(s, flying) then 0 else 2 * (s.attempts - s.made) + if flying then 1 else 0
  }

  function Fails(s: ClientState, flying: bool): nat {
    if Over(s, flying) then 1 else 0
  }

  lemma StepTries(t: JsonText, s: ClientState, flying: bool, e: Event)
    requires Trying(s, flying) && MayHappen(flying, e)
    ensures var s' := Step(t, s, e).0;
            && Trying(s', Flying(s, flying, e)) && s'.attempts == s.attempts
            && s'.made == s.made + (if Fires(s, e) then 1 else 0)
            && (Stuck(s', Flying(s, flying, e)) <==> Stuck(s, flying) || (Fires(s, e) && !e.validUri))
            && (Over(s, flying) ==> Over(s', Flying(s, flying, e)) && !Fires(s, e))
    ensures (Fires(s, e) ==> e.validUri) ==>
              TurnsLeft(Step(t, s, e).0, Flying(s, flying, e)) + (if Fires(s, e) || e.OnFail? then 1 else 0)
              == TurnsLeft(s, flying)
  {
  }

  lemma StepFailsOnce(t: JsonText, s: ClientState, flying: bool, e: Event)
    requires Trying(s, flying) && MayHappen(flying, e)
    ensures CountFails(Step(t, s, e).1) + Fails(s, flying) == Fails(Step(t, s, e).0, Flying(s, flying, e))
  {
    var out := Step(t, s, e).1;
    if Fires(s, e) {
      CountsAppend([ReconnectingListener], ConnectOutputs(e.validUri));
      OneOutput(ReconnectingListener);
      ConnectCounts(e.validUri);
    } else if out != [] {
      OneOutput(out[0]);
    }
  }

  lemma ConnectCounts(validUri: bool)
    ensures CountFails(ConnectOutputs(validUri)) == if validUri then 0 else 1
    ensures CountReconnects(ConnectOutputs(validUri)) == 0
  {
    CountsAppend([Attempt], [FailListener]);
    OneOutput(Attempt);
    OneOutput(FailListener);
    assert [Attempt] + [FailListener] == [Attempt, FailListener];
  }

  lemma {:induction false} RunTries(t: JsonText, s: ClientState, flying: bool, es: seq<Event>)
    requires Trying(s, flying) && FailsOnly(t, s, flying, es)
    ensures var (end, over) := (Run(t, s, es).0, FlyingAfter(t, s, flying, es));
            && Trying(end, over) && end.attempts == s.attempts && end.made == s.made + FiresClosed(t, s, es)
            && (Stuck(end, over) <==> Stuck(s, flying) || !AllValid(t, s, es))
            && (Over(s, flying) ==> Over(end, over) && end.made == s.made)
            && (AllValid(t, s, es) ==> TurnsLeft(end, over) + Turns(t, s, es) == TurnsLeft(s, flying))
    decreases |es|
  {
    if es != [] {
      StepTries(t, s, flying, es[0]);
      RunTries(t, Step(t, s, es[0]).0, Flying(s, flying, es[0]), es[1..]);
    }
  }

  lemma {:induction false} RunFailsOnce(t: JsonText, s: ClientState, flying: bool, es: seq<Event>)
    requires Trying(s, flying) && FailsOnly(t, s, flying, es)
    ensures CountFails(Run(t, s, es).1) + Fails(s, flying)
            == Fails(Run(t, s, es).0, FlyingAfter(t, s, flying, es))
    decreases |es|
  {
    if es != [] {
      var (s1, o1) := Step(t, s, es[0]);
      StepTries(t, s, flying, es[0]);
      StepFailsOnce(t, s, flying, es[0]);
      RunFailsOnce(t, s1, Flying(s, flying, es[0]), es[1..]);
      CountsAppend(o1, Run(t, s1, es[1..]).1);
    }
  }

  lemma RunFirst(t: JsonText, s: ClientState, e: Event, es: seq<Event>)
    ensures var (s1, o1) := Step(t, s, e);
            var (end, out) := Run(t, s1, es);
            Run(t, s, [e] + es) == (end, o1 + out)
  {
    assert ([e] + es)[1..] == es;
  }

  predicate CanConnect(s: ClientState) {
    !s.thread || s.con == Closing || s.con == Closed
  }

  lemma ConnectTries(t: JsonText, s: ClientState, validUri: bool)
    requires CanConnect(s)
    ensures var (s1, o1) := Step(t, s, Connect(validUri));
            && Trying(s1, validUri) && s1.attempts == s.attempts && s1.made == 0
            && TurnsLeft(s1, validUri) == (if validUri then 2 * s.attempts + 1 else 0)
            && CountReconnects(o1) == 0 && CountFails(o1) == Fails(s1, validUri)
  {
    ConnectCounts(validUri);
  }

  lemma EndTells(t: JsonText, end: ClientState, flying: bool)
    requires Trying(end, flying)
    ensures Over(end, flying) ==> (Stuck(end, flying) <==> end.con == Opening)
    ensures Over(end, flying) && end.con == Closed ==> end.made == end.attempts
    ensures Over(end, flying) <==> TurnsLeft(end, flying) == 0
    ensures Over(end, flying) && end.con == Opening ==> forall again :: Step(t, end, Connect(again)) == (end, [])
  {
  }

  /** What follows a `connect`, to a valid URI or not, when no attempt succeeds and nobody calls `connect` or
      `close`, in any order of events. The fail listener has been called once if it is over, and not before.
      If every attempt has a valid URI, it is over after two turns for each attempt the limit allows and one
      for the first attempt, and there were as many reconnects as the limit. It ends in `con_closed` if and
      only if every attempt had a valid URI; otherwise the client ignores any further `connect`. */
  lemma EveryAttemptFails(t: JsonText, s: ClientState, validUri: bool, es: seq<Event>)
    requires CanConnect(s) && FailsOnly(t, Step(t, s, Connect(validUri)).0, validUri, es)
    ensures var s1 := Step(t, s, Connect(validUri)).0;
            var (end, out) := Run(t, s, [Connect(validUri)] + es);
            var over := Over(end, FlyingAfter(t, s1, validUri, es));
            var allValid := validUri && AllValid(t, s1, es);
            && CountReconnects(out) == end.made <= s.attempts
            && CountFails(out) == (if over then 1 else 0)
            && (allValid ==> (over <==> Turns(t, s1, es) == 2 * s.attempts + 1))
            && (over ==> (end.con == Closed <==> allValid))
            && (over && allValid ==> end.made == s.attempts)
            && (over && !allValid ==> end.con == Opening && forall again :: Step(t, end, Connect(again)) == (end, []))
  {
    var (s1, o1) := Step(t, s, Connect(validUri));
    RunFirst(t, s, Connect(validUri), es);
    ConnectTries(t, s, validUri);
    CountsAppend(o1, Run(t, s1, es).1);
    RunTries(t, s1, validUri, es);
    RunFailsOnce(t, s1, validUri, es);
    ReconnectsFromClosed(t, s1, es);
    EndTells(t, Run(t, s1, es).0, FlyingAfter(t, s1, validUri, es));
  }

  /** The attempts of a run have the URI that was given to `connect`. */
  predicate SameUri(es: seq<Event>, validUri: bool) {
    forall k :: 0 <= k < |es| && es[k].TimerFires? ==> es[k].validUri == validUri
  }

  lemma {:induction false} SameUriValid(t: JsonText, s: ClientState, es: seq<Event>)
    requires SameUri(es, true)
    ensures AllValid(t, s, es)
    decreases |es|
  {
    if es != [] {
      SameUriValid(t, Step(t, s, es[0]).0, es[1..]);
    }
  }

  /** So with one URI for all attempts: once it is over there were as many reconnects as the limit if and only
      if the URI is valid or the limit is 0; with an invalid one there was none. */
  lemma LimitReachedIff(t: JsonText, s: ClientState, validUri: bool, es: seq<Event>)
    requires CanConnect(s) && FailsOnly(t, Step(t, s, Connect(validUri)).0, validUri, es) && SameUri(es, validUri)
    requires var s1 := Step(t, s, Connect(validUri)).0;
             Over(Run(t, s1, es).0, FlyingAfter(t, s1, validUri, es))
    ensures var out := Run(t, s, [Connect(validUri)] + es).1;
            && CountReconnects(out) == (if validUri then s.attempts else 0)
            && (CountReconnects(out) == s.attempts <==> validUri || s.attempts == 0)
  {
    var s1 := Step(t, s, Connect(validUri)).0;
    EveryAttemptFails(t, s, validUri, es);
    RunFirst(t, s, Connect(validUri), es);
    if validUri {
      SameUriValid(t, s1, es);
    } else {
      RunTries(t, s1, false, es);
    }
  }

  /** An example: after a `connect` to an invalid URI one to a valid URI does nothing, and no timer waits,
      whatever the limit. */
  lemma InvalidUriDeafens(t: JsonText, s: ClientState)
    requires CanConnect(s)
    ensures var (end, out) := Run(t, s, [Connect(false), Connect(true)]);
            out == [Attempt, FailListener] && end.con == Opening && !end.armed && end.made == 0
  {
    RunFirst(t, s, Connect(false), [Connect(true)]);
    RunFirst(t, Step(t, s, Connect(false)).0, Connect(true), []);
    assert [Connect(false)] + [Connect(true)] == [Connect(false), Connect(true)];
    assert [Connect(true)] + [] == [Connect(true)];
  }

  // ----- packets and connections -----

  function PacketOf(o: Output): seq<PacketState> {
    if o.Delivered? then [o.packet] else []
  }

  function Packets(out: seq<Output>): seq<PacketState> {
    if out == [] then [] else PacketOf(out[0]) + Packets(out[1..])
  }

  lemma {:induction false} PacketsAppend(a: seq<Output>, b: seq<Output>)
    ensures Packets(a + b) == Packets(a) + Packets(b)
    decreases |a|
  {
    if a == [] {
      assert a + b == b;
    } else {
      assert (a + b)[0] == a[0] && (a + b)[1..] == a[1..] + b;
      PacketsAppend(a[1..], b);
      assert PacketOf(a[0]) + (Packets(a[1..]) + Packets(b)) == PacketOf(a[0]) + Packets(a[1..]) + Packets(b);
    }
  }

  /** The payloads of a run, split where a connection attempt starts; `current` came before. */
  function Sessions(t: JsonText, s: ClientState, es: seq<Event>, current: seq<string>): seq<seq<string>>
    decreases |es|
  {
    if es == [] then [current]
    else
      var (s1, out) := Step(t, s, es[0]);
      if Attempt in out then [current] + Sessions(t, s1, es[1..], [])
      else if es[0].Payload? then Sessions(t, s1, es[1..], current + [es[0].text])
      else Sessions(t, s1, es[1..], current)
  }

  function DeliveredBy(t: JsonText, sessions: seq<seq<string>>): seq<PacketState> {
    if sessions == [] then [] else Receive(t, None, sessions[0]).1 + DeliveredBy(t, sessions[1..])
  }

  lemma PutDelivers(t: JsonText, partial: Option<PacketState>, text: string)
    ensures |Put(t, partial, text).delivered| <= 1
  {
  }

  lemma ReceiveOneMore(t: JsonText, texts: seq<string>, text: string)
    ensures var (mid, first) := Receive(t, None, texts);
            var r := Put(t, mid, text);
            Receive(t, None, texts + [text]).0 == r.partial && Receive(t, None, texts + [text]).1 == first + r.delivered
  {
    ReceiveAppend(t, None, texts, [text]);
    var mid := Receive(t, None, texts).0;
    assert [text][1..] == [];
    assert Put(t, mid, text).delivered + [] == Put(t, mid, text).delivered;
  }

  lemma {:induction false} NoPackets(out: seq<Output>)
    requires forall o :: o in out ==> !o.Delivered?
    ensures Packets(out) == []
  {
    if out != [] {
      assert out[0] in out;
      NoPackets(out[1..]);
    }
  }

  lemma StepPackets(t: JsonText, s: ClientState, e: Event)
    ensures Packets(Step(t, s, e).1) == if e.Payload? then Put(t, s.partial, e.text).delivered else []
    ensures !e.Payload? && Attempt !in Step(t, s, e).1 ==> Step(t, s, e).0.partial == s.partial
    ensures Attempt in Step(t, s, e).1 ==> !e.Payload? && Step(t, s, e).0.partial == None
  {
    var out := Step(t, s, e).1;
    if e.Payload? {
      PutDelivers(t, s.partial, e.text);
      if out != [] {
        assert out[1..] == [];
      }
    } else {
      NoPackets(out);
    }
  }

  /** No packet mixes connections: over every run, the packets delivered are those that each
      connection's payloads give when received on their own. */
  lemma {:induction false} SessionsAreIndependent(t: JsonText, s: ClientState, es: seq<Event>, current: seq<string>)
    requires s.partial == Receive(t, None, current).0
    ensures DeliveredBy(t, Sessions(t, s, es, current)) == Receive(t, None, current).1 + Packets(Run(t, s, es).1)
    decreases |es|
  {
    if es == [] {
      assert Sessions(t, s, es, current)[1..] == [];
    } else {
      var (s1, o1) := Step(t, s, es[0]);
      var o2 := Run(t, s1, es[1..]).1;
      PacketsAppend(o1, o2);
      StepPackets(t, s, es[0]);
      var next := if Attempt in o1 then [] else if es[0].Payload? then current + [es[0].text] else current;
      NextSession(t, s, s1, o1, es[0], current, next);
      SessionsAreIndependent(t, s1, es[1..], next);
      SessionsCons(t, s, es, current, next);
      Regroup(Receive(t, None, current).1, Packets(o1), Packets(o2));
    }
  }

  lemma Regroup(a: seq<PacketState>, b: seq<PacketState>, c: seq<PacketState>)
    ensures a + b + c == a + (b + c) && a + [] == a && [] + a == a
  {
  }

  lemma NextSession(t: JsonText, s: ClientState, s1: ClientState, o1: seq<Output>, e: Event, current: seq<string>,
                    next: seq<string>)
    requires (s1, o1) == Step(t, s, e) && s.partial == Receive(t, None, current).0
    requires next == if Attempt in o1 then [] else if e.Payload? then current + [e.text] else current
    ensures s1.partial == Receive(t, None, next).0
    ensures Receive(t, None, next).1 == if Attempt in o1 then [] else Receive(t, None, current).1 + Packets(o1)
    ensures Attempt in o1 ==> Packets(o1) == []
  {
    StepPackets(t, s, e);
    if e.Payload? {
      ReceiveOneMore(t, current, e.text);
    } else {
      Regroup(Receive(t, None, current).1, [], []);
    }
  }

  lemma SessionsCons(t: JsonText, s: ClientState, es: seq<Event>, current: seq<string>, next: seq<string>)
    requires es != []
    requires var o1 := Step(t, s, es[0]).1;
             next == if Attempt in o1 then [] else if es[0].Payload? then current + [es[0].text] else current
    ensures var (s1, o1) := Step(t, s, es[0]);
            var rest := DeliveredBy(t, Sessions(t, s1, es[1..], next));
            DeliveredBy(t, Sessions(t, s, es, current)) == if Attempt in o1 then Receive(t, None, current).1 + rest
              else rest
  {
    var (s1, o1) := Step(t, s, es[0]);
    if Attempt in o1 {
      assert Sessions(t, s, es, current)[1..] == Sessions(t, s1, es[1..], []);
    }
  }
}
