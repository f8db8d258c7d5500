/** The text of the frames, character by character, and the way of an event from `emit` to the receiver
    (sioclient/internal/sio_packet.cpp, sioclient/sio_socket.cpp). */
module Wire {
  import opened Options
  import opened SioMessage
  import opened Placeholders
  import opened SioPacket
  import opened SioStream
  import opened SioSocket

  // ----- frames -----

  /** What `packet` makes of the types it is constructed with: the second digit is that of the wire. */
  ghost predicate KindOnWire(kind: int, binaries: bool, digit: char) {
    || ((kind == 0 || kind == 0x10) && digit == '0')
    || ((kind == 1 || kind == 0x11) && digit == '1')
    || ((kind == 2 || kind == 0x12) && digit == if binaries then '5' else '2')
    || ((kind == 3 || kind == 0x13) && digit == if binaries then '6' else '3')
    || ((kind == 4 || kind == 0x14) && digit == '4')
  }

  lemma SendableKind(p: PacketState)
    requires Sendable(p)
    ensures 0 <= p.kind <= 4 || 0x10 <= p.kind <= 0x14
  {
    if p.kind / 16 % 2 == 1 {
      assert p.kind - 16 <= 4;
    }
  }

  /** The text frame of a packet: "42" for an event and "45" for one with binaries, "43" and "46" for acks,
      "40", "41" and "44" for connect, disconnect and error; then the number of attachments and a dash, the
      namespace unless it is the root, with a comma if something follows, the id, and the JSON text. The
      attachments follow as frames of their own. */
  lemma FramesOf(t: JsonText, p: PacketState, digit: char)
    requires Sendable(p) && KindOnWire(p.kind, Binaries(p.message) != [], digit)
    ensures Frames(t, p) ==
            [['4', digit]
             + (if Binaries(p.message) == [] then "" else Dec(|Binaries(p.message)|) + "-")
             + (if p.nsp == "/" then "" else if p.message == NoMessage then p.nsp else p.nsp + ",")
             + (if p.packId < 0 then "" else Dec(p.packId))
             + (if p.message == NoMessage then "" else t.write(Accepted(p.message, []).0))]
            + Binaries(p.message)
  {
    var bs := Binaries(p.message);
    SendableKind(p);
    AcceptedAppends(p.message, []);
    assert [] + bs == bs;
    DecDigit(WireKind(p.kind, bs != []));
    var json := if p.message == NoMessage then "" else t.write(Accepted(p.message, []).0);
    var count := if bs == [] then "" else Dec(|bs|) + "-";
    var nsp := if p.nsp == "/" then "" else if p.message == NoMessage then p.nsp else p.nsp + ",";
    Concat("4", [digit], count, nsp, if p.packId < 0 then "" else Dec(p.packId), json);
    assert "4" + [digit] == ['4', digit];
  }

  lemma DigitOf(kind: int, binaries: bool, digit: char)
    requires KindOnWire(kind, binaries, digit)
    ensures kind >= 0 && WireKind(kind, binaries) == digit as int - '0' as int
  {
  }

  lemma Concat(a: string, b: string, c: string, d: string, e: string, f: string)
    ensures a + (b + c + d + e) + f == a + b + c + d + e + f
  {
  }

  /** What the receiver is given for a packet: its message, namespace and id, and the type that the wire
      shows. */
  lemma DeliveredAs(t: JsonText, partial: Option<PacketState>, p: PacketState, digit: char)
    requires Lawful(t) && Sendable(p) && AllBinary(Binaries(p.message))
    requires KindOnWire(p.kind, Binaries(p.message) != [], digit)
    ensures Receive(t, partial, Frames(t, p)).1
         == [PacketState(4, digit as int - '0' as int, p.nsp, p.packId, p.message, 0, [])]
  {
    PacketRoundTrip(t, partial, p);
    DigitOf(p.kind, Binaries(p.message) != [], digit);
  }

  /** Attachments that no header announced are ignored, however many. */
  lemma {:induction false} StrayAttachments(t: JsonText, payloads: seq<string>)
    requires AllBinary(payloads)
    ensures Receive(t, None, payloads).0 == None && Receive(t, None, payloads).1 == []
    decreases |payloads|
  {
    if payloads != [] {
      assert payloads[0] in payloads;
      assert Put(t, None, payloads[0]) == Receipt(None, [], false);
      StrayAttachments(t, payloads[1..]);
    }
  }

  /** In the JSON text a binary is an object with two members, the second of which is the number of its
      attachment. */
  lemma BinaryBecomes(bytes: string, buffers: seq<string>)
    requires |buffers| < 0x8000_0000
    ensures Accepted(BinaryMessage(bytes), buffers) ==
            (JObject([Entry("_placeholder", JBool(true)), Entry("num", JInt(|buffers|))]), buffers + [bytes])
  {
  }

  // ----- from emit to the receiver -----

  lemma {:induction false} AcceptedSplit(s: SocketState, a: seq<Event>, e: Event, b: seq<Event>)
    ensures AcceptedRun(s, a + [e] + b)
         == AcceptedRun(s, a) + AcceptedIn(Run(s, a), e) + AcceptedRun(Step(Run(s, a), e), b)
    decreases |a|
  {
    var es := a + [e] + b;
    if a == [] {
      assert es[0] == e && es[1..] == b;
    } else {
      assert es[0] == a[0] && es[1..] == a[1..] + [e] + b;
      AcceptedSplit(Step(s, a[0]), a[1..], e, b);
      Middle(AcceptedIn(s, a[0]), AcceptedRun(Step(s, a[0]), a[1..]), AcceptedIn(Run(s, a), e),
        AcceptedRun(Step(Run(s, a), e), b));
    }
  }

  lemma Middle(a: seq<PacketState>, b: seq<PacketState>, c: seq<PacketState>, d: seq<PacketState>)
    ensures a + (b + c + d) == a + b + c + d
  {
  }

  lemma {:induction false} OnWiresIndex(ps: seq<PacketState>, k: nat)
    requires (forall i :: 0 <= i < |ps| ==> Sendable(ps[i])) && k < |ps|
    ensures |OnWires(ps)| == |ps| && Sendable(ps[k]) && OnWires(ps)[k] == OnWire(ps[k])
  {
    if |ps| > 1 {
      OnWiresIndex(ps[1..], if k > 0 then k - 1 else 0);
    }
  }

  ghost predicate AllSendable(ps: seq<PacketState>) {
    forall k :: 0 <= k < |ps| ==> Sendable(ps[k])
  }

  ghost predicate AttachmentsBinary(ps: seq<PacketState>) {
    forall k :: 0 <= k < |ps| ==> AllBinary(Binaries(ps[k].message))
  }

  /** What the receiver of everything a fresh socket sent is given, beside connect packets. */
  ghost function Received(t: JsonText, s: SocketState, es: seq<Event>): seq<PacketState>
    requires AllSendable(Run(s, es).sent)
  {
    Data(Receive(t, None, StreamOf(t, Run(s, es).sent)).1)
  }

  /** A fresh socket whose packets can all be sent, in a run after which it is connected. */
  ghost predicate Delivers(t: JsonText, s: SocketState, es: seq<Event>) {
    && Lawful(t) && QueueOk(s) && s.sent == [] && s.queue == [] && Closed !in es && Run(s, es).connected
    && AllSendable(Run(s, es).sent) && AllSendable(AcceptedRun(s, es)) && AttachmentsBinary(AcceptedRun(s, es))
  }

  lemma AcceptedArrives(t: JsonText, s: SocketState, a: seq<Event>, e: Event, b: seq<Event>, p: PacketState)
    requires Delivers(t, s, a + [e] + b) && AcceptedIn(Run(s, a), e) == [p]
    ensures var got := Received(t, s, a + [e] + b);
            Sendable(p) && |AcceptedRun(s, a)| < |got| && got[|AcceptedRun(s, a)|] == OnWire(p)
  {
    var es := a + [e] + b;
    var accepted := AcceptedRun(s, es);
    EmittedIsDelivered(t, s, es, accepted);
    AcceptedSplit(s, a, e, b);
    assert accepted[|AcceptedRun(s, a)|] == p;
    OnWiresIndex(accepted, |AcceptedRun(s, a)|);
  }

  lemma {:induction false} StaysAttached(s: SocketState, a: seq<Event>)
    requires QueueOk(s) && Closed !in a
    ensures Run(s, a).attached
  {
    FifoLossless(s, a);
  }

  lemma {:induction false} SameNamespace(s: SocketState, a: seq<Event>)
    ensures Run(s, a).nsp == s.nsp
    decreases |a|
  {
    if a != [] {
      if a[0].Connected? {
        ListenerNamespace(s.(connected := true), a[0].listener);
      }
      SameNamespace(Step(s, a[0]), a[1..]);
    }
  }

  lemma {:induction false} ListenerNamespace(s: SocketState, cs: seq<Call>)
    ensures DoAll(s, cs).nsp == s.nsp
    decreases |cs|
  {
    if cs != [] {
      ListenerNamespace(Do(s, cs[0]), cs[1..]);
    }
  }

  /** An emitted event arrives: the receiver is given, in its place, an event in the socket's namespace whose
      message is the array of the name and the arguments, a binary event if one of them holds a binary, with
      the next free id if the caller waits for an ack and with none if not. */
  lemma EventArrives(t: JsonText, s: SocketState, a: seq<Event>, name: string, args: seq<Message>, wantsAck: bool,
                     b: seq<Event>)
    requires Delivers(t, s, a + [Api(Emit(name, args, wantsAck))] + b)
    ensures var got := Received(t, s, a + [Api(Emit(name, args, wantsAck))] + b);
            var message := ArrayMessage([StringMessage(name)] + args);
            && |AcceptedRun(s, a)| < |got|
            && got[|AcceptedRun(s, a)|] == PacketState(4, if Binaries(message) == [] then 2 else 5, s.nsp,
                 if wantsAck then Run(s, a).nextId else -1, message, 0, [])
  {
    var e := Api(Emit(name, args, wantsAck));
    var message := ArrayMessage([StringMessage(name)] + args);
    assert Closed !in a by {
      assert forall x :: x in a ==> x in a + [e] + b;
    }
    StaysAttached(s, a);
    SameNamespace(s, a);
    var p := PacketState(4, 0x12, s.nsp, if wantsAck then Run(s, a).nextId else -1, message, 0, []);
    AcceptedArrives(t, s, a, e, b, p);
  }

  /** An ack arrives: an ack of the id that is acknowledged, with the array of the arguments. */
  lemma AckArrives(t: JsonText, s: SocketState, a: seq<Event>, msgId: nat, args: seq<Message>, b: seq<Event>)
    requires Delivers(t, s, a + [Api(Ack(msgId, args))] + b)
    ensures var got := Received(t, s, a + [Api(Ack(msgId, args))] + b);
            && |AcceptedRun(s, a)| < |got|
            && got[|AcceptedRun(s, a)|] ==
               PacketState(4, if Binaries(ArrayMessage(args)) == [] then 3 else 6, s.nsp, msgId,
                 ArrayMessage(args), 0, [])
  {
    var e := Api(Ack(msgId, args));
    assert Closed !in a by {
      assert forall x :: x in a ==> x in a + [e] + b;
    }
    StaysAttached(s, a);
    SameNamespace(s, a);
    AcceptedArrives(t, s, a, e, b, PacketState(4, 0x13, s.nsp, msgId, ArrayMessage(args), 0, []));
  }

  // ----- without a connection -----

  lemma OpenIsNoData(sent: seq<PacketState>, nsp: string, auth: Message)
    ensures Data(sent + [ControlPacket(TYPE_CONNECT, nsp, auth)]) == Data(sent)
  {
    var p := ControlPacket(TYPE_CONNECT, nsp, auth);
    DataAppend(sent, [p]);
    assert [p][1..] == [];
    assert Data([p]) == [];
  }

  lemma InOrder(a: seq<PacketState>, b: seq<PacketState>, c: seq<PacketState>)
    ensures a + b + c == a + (b + c)
  {
  }

  lemma StepWaits(s: SocketState, e: Event)
    requires s.attached && !s.connected && e != Closed && !e.Connected?
    ensures var s' := Step(s, e);
            && !s'.connected && s'.attached && Data(s'.sent) == Data(s.sent) && s'.queue == s.queue + AcceptedIn(s, e)
  {
    match e
    case Opened(auth) => OpenIsNoData(s.sent, s.nsp, auth);
    case _ =>
  }

  /** While a socket is not connected nothing but connect packets goes to the client, and what is accepted
      waits in the queue, in order: also right after a disconnect. */
  lemma {:induction false} OfflineWaits(s: SocketState, es: seq<Event>)
    requires s.attached && !s.connected && Closed !in es && forall e :: e in es ==> !e.Connected?
    ensures var s' := Run(s, es);
            && !s'.connected && s'.attached && Data(s'.sent) == Data(s.sent)
            && s'.queue == s.queue + AcceptedRun(s, es)
    decreases |es|
  {
    if es != [] {
      assert es[0] in es;
      StepWaits(s, es[0]);
      OfflineWaits(Step(s, es[0]), es[1..]);
      InOrder(s.queue, AcceptedIn(s, es[0]), AcceptedRun(Step(s, es[0]), es[1..]));
    }
  }

  /** A lost connection takes the socket off line, whatever it was before. */
  lemma DisconnectWaits(s: SocketState, es: seq<Event>)
    requires QueueOk(s) && Closed !in es && forall e :: e in es ==> !e.Connected?
    ensures var s1 := Step(s, Disconnected);
            var s' := Run(s1, es);
            !s'.connected && Data(s'.sent) == Data(s.sent) && s'.queue == s1.queue + AcceptedRun(s1, es)
  {
    OfflineWaits(Step(s, Disconnected), es);
  }

  /** The socket presents itself with a connect packet that holds the authentication, at once. */
  lemma OpenPresents(t: JsonText, s: SocketState, auth: Message)
    requires s.attached && NamespaceOk(s.nsp)
    requires auth != NoMessage ==> WellFormed(auth) && Unmarked(auth) && RootOk(auth) && Binaries(auth) == []
    requires auth == NoMessage ==> Binaries(auth) == []
    ensures var sent := Step(s, Opened(auth)).sent;
            |sent| == |s.sent| + 1 && sent[..|s.sent|] == s.sent && Sendable(sent[|s.sent|])
    ensures var sent := Step(s, Opened(auth)).sent;
            Frames(t, sent[|s.sent|]) ==
            ["40" + (if s.nsp == "/" then "" else if auth == NoMessage then s.nsp else s.nsp + ",")
             + if auth == NoMessage then "" else t.write(Accepted(auth, []).0)]
  {
    var p := ControlPacket(TYPE_CONNECT, s.nsp, auth);
    var nsp := if s.nsp == "/" then "" else if auth == NoMessage then s.nsp else s.nsp + ",";
    var json := if auth == NoMessage then "" else t.write(Accepted(auth, []).0);
    assert Sendable(p);
    FramesOf(t, p, '0');
    assert ['4', '0'] + "" + nsp + "" + json == "40" + nsp + json;
    assert ["40" + nsp + json] + [] == ["40" + nsp + json];
  }

  /** `close` of a socket that is connected sends one disconnect packet, after all that is queued; of one that is
      not, nothing. */
  lemma CloseTakesLeave(t: JsonText, s: SocketState)
    requires s.attached && NamespaceOk(s.nsp)
    ensures var s' := Step(s, Api(Close));
            if !s.connected then s' == s
            else
              && |s'.sent| == |s.sent| + |s.queue| + 1 && s'.sent[..|s'.sent| - 1] == s.sent + s.queue
              && Sendable(s'.sent[|s'.sent| - 1])
              && Frames(t, s'.sent[|s'.sent| - 1]) == ["41" + if s.nsp == "/" then "" else s.nsp]
  {
    var p := PacketState(4, 1, s.nsp, -1, NoMessage, 0, []);
    var nsp := if s.nsp == "/" then "" else s.nsp;
    FramesOf(t, p, '1');
    assert ['4', '1'] + "" + nsp + "" + "" == "41" + nsp;
    assert ["41" + nsp] + [] == ["41" + nsp];
  }

  /** Once the socket was closed from below, whatever still happens: nothing is accepted, sent or called back. */
  lemma ClosedFromBelow(s: SocketState, es: seq<Event>)
    ensures var s1 := Step(s, Closed);
            && AcceptedRun(s1, es) == [] && Run(s1, es).sent == s.sent && Run(s1, es).fired == s.fired
  {
    ClosedIsFinal(Step(s, Closed), es);
  }

  // ----- acks -----

  /** A callback that waits is called when its ack arrives, in every run that neither closes nor acks before. */
  lemma {:induction false} WaitingFires(s: SocketState, es: seq<Event>, id: nat)
    requires s.attached && id in s.acks && Closed !in es && AckReceived(id) !in es
    ensures var s' := Run(s, es);
            && s'.attached && id in s'.acks
            && Step(s', AckReceived(id)).fired == s'.fired + [id] && id !in Step(s', AckReceived(id)).acks
    decreases |es|
  {
    if es != [] {
      if es[0].Connected? {
        ListenerWaits(s.(connected := true), es[0].listener, id);
      }
      WaitingFires(Step(s, es[0]), es[1..], id);
    }
  }

  lemma {:induction false} ListenerWaits(s: SocketState, cs: seq<Call>, id: nat)
    requires s.attached && id in s.acks
    ensures DoAll(s, cs).attached && id in DoAll(s, cs).acks
    decreases |cs|
  {
    if cs != [] {
      ListenerWaits(Do(s, cs[0]), cs[1..], id);
    }
  }

  /** So the callback of an emitted event is called with the first ack of the event's id. */
  lemma EmittedFires(s: SocketState, name: string, args: seq<Message>, es: seq<Event>)
    requires s.attached && Closed !in es && AckReceived(s.nextId) !in es
    ensures var s' := Run(Step(s, Api(Emit(name, args, true))), es);
            Step(s', AckReceived(s.nextId)).fired == s'.fired + [s.nextId]
  {
    WaitingFires(Step(s, Api(Emit(name, args, true))), es, s.nextId);
  }
}
