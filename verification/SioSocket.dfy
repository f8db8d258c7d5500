/** One Socket.IO socket: the offline queue, its re-entrant flushing and the ack table
    (sioclient/sio_socket.cpp). */
module SioSocket {
  import opened Options
  import opened SioMessage
  import opened Placeholders
  import opened SioPacket
  import opened SioStream

  /** What the user, or the socket-open listener, may call. */
  datatype Call =
    | Emit(name: string, args: seq<Message>, wantsAck: bool)
    | Ack(msgId: nat, args: seq<Message>)
    | Close

  /** `sent` is everything handed to `client_impl::send`; `fired` the ids of the ack callbacks run. */
  datatype SocketState = SocketState(
    attached: bool, connected: bool, nsp: string, queue: seq<PacketState>, acks: set<nat>,
    nextId: nat, sent: seq<PacketState>, fired: seq<nat>)

  function MessagePacket(nsp: string, args: seq<Message>, packId: int, isAck: bool): PacketState {
    PacketState(FRAME_MESSAGE, (if isAck then TYPE_ACK else TYPE_EVENT) + TYPE_UNDETERMINED, nsp, packId,
                ArrayMessage(args), 0, [])
  }

  function ControlPacket(kind: nat, nsp: string, m: Message): PacketState {
    PacketState(FRAME_MESSAGE, kind, nsp, -1, m, 0, [])
  }

  // ----- what each operation does to the state -----

  function SendPacket(s: SocketState, p: PacketState): SocketState {
    if !s.attached then s
    else if s.connected then s.(sent := s.sent + s.queue + [p], queue := [])
    else s.(queue := s.queue + [p])
  }

  /** The packets that a call hands to `send_packet` of a socket with a client. */
  function Offered(s: SocketState, c: Call): seq<PacketState> {
    match c
    case Emit(name, args, wantsAck) =>
      [MessagePacket(s.nsp, [StringMessage(name)] + args, if wantsAck then s.nextId else -1, false)]
    case Ack(msgId, args) => [MessagePacket(s.nsp, args, msgId, true)]
    case Close => if s.connected then [ControlPacket(TYPE_DISCONNECT, s.nsp, NoMessage)] else []
  }

  function Do(s: SocketState, c: Call): SocketState {
    if !s.attached then s
    else
      var offered := Offered(s, c);
      var s' := if c.Emit? && c.wantsAck then s.(acks := s.acks + {s.nextId}, nextId := s.nextId + 1) else s;
      if offered == [] then s' else SendPacket(s', offered[0])
  }

  function DoAll(s: SocketState, cs: seq<Call>): SocketState
    decreases |cs|
  {
    if cs == [] then s else DoAll(Do(s, cs[0]), cs[1..])
  }

  function OfferedAll(s: SocketState, cs: seq<Call>): seq<PacketState>
    decreases |cs|
  {
    if cs == [] || !s.attached then [] else Offered(s, cs[0]) + OfferedAll(Do(s, cs[0]), cs[1..])
  }

  datatype Event =
    | Api(call: Call)
    | Connected(listener: seq<Call>)  // with what the socket-open listener calls
    | Disconnected
    | Opened(auth: Message)
    | AckReceived(id: nat)
    | Closed
    | OtherSocketEmits                // takes an id from the shared counter

  function Step(s: SocketState, e: Event): SocketState {
    match e
    case Api(c) => Do(s, c)
    case OtherSocketEmits => s.(nextId := s.nextId + 1)
    case Connected(listener) =>
      if !s.attached || s.connected then s
      else
        var s' := DoAll(s.(connected := true), listener);
        s'.(sent := s'.sent + s'.queue, queue := [])
    case Disconnected => if s.attached && s.connected then s.(connected := false, queue := []) else s
    case Opened(auth) => if s.attached then s.(sent := s.sent + [ControlPacket(TYPE_CONNECT, s.nsp, auth)]) else s
    case AckReceived(id) =>
      if s.attached && id in s.acks then s.(acks := s.acks - {id}, fired := s.fired + [id]) else s
    case Closed => if s.attached then s.(attached := false, connected := false, queue := []) else s
  }

  /** The packets accepted by `send_packet` during an event, in call order. */
  function AcceptedIn(s: SocketState, e: Event): seq<PacketState> {
    if !s.attached then []
    else
      match e
      case Api(c) => Offered(s, c)
      case Connected(listener) => if s.connected then [] else OfferedAll(s.(connected := true), listener)
      case _ => []
  }

  function Run(s: SocketState, es: seq<Event>): SocketState
    decreases |es|
  {
    if es == [] then s else Run(Step(s, es[0]), es[1..])
  }

  function AcceptedRun(s: SocketState, es: seq<Event>): seq<PacketState>
    decreases |es|
  {
    if es == [] then [] else AcceptedIn(s, es[0]) + AcceptedRun(Step(s, es[0]), es[1..])
  }

  // ----- the class -----

  class EventIds {
    var next: nat
  }

  /** The part of `client_impl` a socket uses: `send`. */
  class Client {
    var sent: seq<PacketState>

    method Send(p: PacketState)
      modifies this
      ensures sent == old(sent) + [p]
    {
      sent := sent + [p];
    }
  }

  class Socket {
    const client: Client
    const ids: EventIds
    const nsp: string
    var attached: bool
    var connected: bool
    var queue: seq<PacketState>
    var acks: set<nat>
    var fired: seq<nat>

    function State(): SocketState
      reads this, client, ids
    {
      SocketState(attached, connected, nsp, queue, acks, ids.next, client.sent, fired)
    }

    constructor (client: Client, ids: EventIds, nsp: string)
      ensures this.client == client && this.ids == ids
      ensures State() == SocketState(true, false, nsp, [], {}, ids.next, client.sent, [])
    {
      this.client, this.ids, this.nsp := client, ids, nsp;
      attached, connected, queue, acks, fired := true, false, [], {}, [];
    }

    /** The loop that `send_packet` and `on_connected` share: one packet at a time is moved from the
        queue to the client. */
    method Flush()
      modifies this`queue, client
      ensures queue == [] && client.sent == old(client.sent + queue)
    {
      while queue != []
        invariant client.sent + queue == old(client.sent + queue)
        decreases |queue|
      {
        var front := queue[0];
        queue := queue[1..];
        client.Send(front);
      }
    }

    method SendOne(p: PacketState)
      modifies this`queue, client
      ensures State() == SendPacket(old(State()), p)
    {
      if !attached {
        return;
      }
      if connected {
        Flush();
        client.Send(p);
      } else {
        queue := queue + [p];
      }
    }

    method EmitEvent(name: string, args: seq<Message>, wantsAck: bool)
      modifies this`queue, this`acks, client, ids
      ensures State() == Do(old(State()), Emit(name, args, wantsAck))
    {
      if !attached {
        return;
      }
      var packId: int := -1;
      if wantsAck {
        packId := ids.next;
        ids.next := ids.next + 1;
        acks := acks + {packId};
      }
      SendOne(MessagePacket(nsp, [StringMessage(name)] + args, packId, false));
    }

    method AckEvent(msgId: nat, args: seq<Message>)
      modifies this`queue, client
      ensures State() == Do(old(State()), Ack(msgId, args))
    {
      SendOne(MessagePacket(nsp, args, msgId, true));
    }

    method CloseSocket()
      modifies this`queue, client
      ensures State() == Do(old(State()), Close)
    {
      if attached && connected {
        SendOne(ControlPacket(TYPE_DISCONNECT, nsp, NoMessage));
      }
    }

    method Perform(c: Call)
      modifies this`queue, this`acks, client, ids
      ensures State() == Do(old(State()), c)
    {
      match c
      case Emit(name, args, wantsAck) => EmitEvent(name, args, wantsAck);
      case Ack(msgId, args) => AckEvent(msgId, args);
      case Close => CloseSocket();
    }

    method OnConnected(listener: seq<Call>)
      requires attached
      modifies this`queue, this`acks, this`connected, client, ids
      ensures State() == Step(old(State()), Connected(listener))
    {
      if !connected {
        connected := true;
        ghost var start := State();
        for i := 0 to |listener|
          invariant DoAll(start, listener) == DoAll(State(), listener[i..])
        {
          assert listener[i..][1..] == listener[i + 1..];
          Perform(listener[i]);
        }
        Flush();
      }
    }

    method OnOpen(auth: Message)
      modifies client
      ensures State() == Step(old(State()), Opened(auth))
    {
      if attached {
        client.Send(ControlPacket(TYPE_CONNECT, nsp, auth));
      }
    }

    method OnDisconnect()
      modifies this`connected, this`queue
      ensures State() == Step(old(State()), Disconnected)
    {
      if attached && connected {
        connected := false;
        while queue != []
          invariant !connected && attached
          decreases |queue|
        {
          queue := queue[1..];
        }
      }
    }

    method OnClose()
      modifies this`connected, this`queue, this`attached
      ensures State() == Step(old(State()), Closed)
    {
      if attached {
        attached := false;
        connected := false;
        while queue != []
          invariant !connected && !attached
          decreases |queue|
        {
          queue := queue[1..];
        }
      }
    }

    method OnSocketioAck(id: nat)
      requires attached
      modifies this`acks, this`fired
      ensures State() == Step(old(State()), AckReceived(id))
    {
      if id in acks {
        acks := acks - {id};
        fired := fired + [id];
      }
    }
  }

  // ----- the queue over runs -----

  /** `sent` without the connect packets, which bypass `send_packet`. */
  function Data(ps: seq<PacketState>): seq<PacketState> {
    if ps == [] then [] else (if ps[0].kind == TYPE_CONNECT then [] else [ps[0]]) + Data(ps[1..])
  }

  lemma {:induction false} DataAppend(a: seq<PacketState>, b: seq<PacketState>)
    ensures Data(a + b) == Data(a) + Data(b)
  {
    if a == [] {
      assert a + b == b;
    } else {
      assert (a + b)[1..] == a[1..] + b;
      DataAppend(a[1..], b);
    }
  }

  ghost predicate NoConnects(ps: seq<PacketState>) {
    Data(ps) == ps
  }

  /** In a socket with a client: a connected one has nothing queued, and no connect packet is queued. */
  ghost predicate QueueOk(s: SocketState) {
    s.attached && (s.connected ==> s.queue == []) && NoConnects(s.queue)
  }

  lemma SendKeeps(s: SocketState, p: PacketState)
    requires s.attached && NoConnects(s.queue) && p.kind != TYPE_CONNECT
    ensures var s' := SendPacket(s, p);
            && s'.attached && s'.connected == s.connected && NoConnects(s'.queue)
            && (s.connected ==> s'.queue == [])
            && Data(s'.sent) + s'.queue == Data(s.sent) + s.queue + [p]
  {
    assert Data([p]) == [p];
    DataAppend(s.queue, [p]);
    DataAppend(s.sent, s.queue);
    DataAppend(s.sent + s.queue, [p]);
    assert Data([]) == [];
  }

  lemma CallKeeps(s: SocketState, c: Call)
    requires s.attached && NoConnects(s.queue)
    ensures var s' := Do(s, c);
            && s'.attached && s'.connected == s.connected && NoConnects(s'.queue)
            && (s.queue == [] && s.connected ==> s'.queue == [])
            && Data(s'.sent) + s'.queue == Data(s.sent) + s.queue + Offered(s, c)
  {
    var s' := if c.Emit? && c.wantsAck then s.(acks := s.acks + {s.nextId}, nextId := s.nextId + 1) else s;
    if Offered(s, c) != [] {
      SendKeeps(s', Offered(s, c)[0]);
    } else {
      assert Data(s.sent) + s.queue == Data(s.sent) + s.queue + [];
    }
  }

  lemma {:induction false} CallsKeep(s: SocketState, cs: seq<Call>)
    requires s.attached && NoConnects(s.queue)
    ensures var s' := DoAll(s, cs);
            && s'.attached && s'.connected == s.connected && NoConnects(s'.queue)
            && Data(s'.sent) + s'.queue == Data(s.sent) + s.queue + OfferedAll(s, cs)
    decreases |cs|
  {
    if cs != [] {
      CallKeeps(s, cs[0]);
      CallsKeep(Do(s, cs[0]), cs[1..]);
    }
  }

  lemma StepKeeps(s: SocketState, e: Event)
    requires QueueOk(s) && e != Closed
    ensures QueueOk(Step(s, e))
    ensures Data(Step(s, e).sent) + Step(s, e).queue == Data(s.sent) + s.queue + AcceptedIn(s, e)
  {
    match e
    case Api(c) => CallKeeps(s, c);
    case Connected(listener) =>
      if !s.connected {
        var s1 := s.(connected := true);
        CallsKeep(s1, listener);
        var s' := DoAll(s1, listener);
        DataAppend(s'.sent, s'.queue);
      }
    case Opened(auth) =>
      var p := ControlPacket(TYPE_CONNECT, s.nsp, auth);
      DataAppend(s.sent, [p]);
      assert Data([p]) == [];
    case _ =>
  }

  /** First in, first out, and nothing lost: until the socket closes, in every run and whatever the
      socket-open listener calls, what went to the client followed by what is queued is exactly what
      was accepted, in call order; and the queue is empty whenever the socket is connected, so that a
      disconnect drops nothing. */
  lemma {:induction false} FifoLossless(s: SocketState, es: seq<Event>)
    requires QueueOk(s) && Closed !in es
    ensures QueueOk(Run(s, es))
    ensures Data(Run(s, es).sent) + Run(s, es).queue == Data(s.sent) + s.queue + AcceptedRun(s, es)
    decreases |es|
  {
    if es != [] {
      var s1 := Step(s, es[0]);
      StepKeeps(s, es[0]);
      FifoLossless(s1, es[1..]);
      assert Run(s, es) == Run(s1, es[1..]) && AcceptedRun(s, es) == AcceptedIn(s, es[0]) + AcceptedRun(s1, es[1..]);
    }
  }

  /** After `on_close` nothing is accepted, sent or queued. */
  lemma {:induction false} ClosedIsFinal(s: SocketState, es: seq<Event>)
    requires !s.attached
    ensures AcceptedRun(s, es) == [] && Run(s, es).sent == s.sent && Run(s, es).queue == s.queue
    ensures Run(s, es).fired == s.fired
    decreases |es|
  {
    if es != [] {
      ClosedIsFinal(Step(s, es[0]), es[1..]);
    }
  }

  /** Once connected, what a fresh socket accepted has all been sent. */
  lemma AllSentOnceConnected(s: SocketState, es: seq<Event>)
    requires QueueOk(s) && s.sent == [] && s.queue == [] && Closed !in es && Run(s, es).connected
    ensures Data(Run(s, es).sent) == AcceptedRun(s, es)
  {
    FifoLossless(s, es);
    var r := Run(s, es);
    assert Data(r.sent) + r.queue == Data(r.sent);
    assert Data(s.sent) + s.queue + AcceptedRun(s, es) == AcceptedRun(s, es);
  }

  /** No accepted packet is a connect packet, also on the wire. */
  ghost predicate NeverConnects(ps: seq<PacketState>) {
    forall p :: p in ps ==> p.kind >= 0 && Determined(p.kind) != TYPE_CONNECT
  }

  lemma {:induction false} OfferedKinds(s: SocketState, cs: seq<Call>)
    ensures NeverConnects(OfferedAll(s, cs))
    decreases |cs|
  {
    if cs != [] && s.attached {
      OfferedKinds(Do(s, cs[0]), cs[1..]);
    }
  }

  lemma {:induction false} AcceptedKinds(s: SocketState, es: seq<Event>)
    ensures NeverConnects(AcceptedRun(s, es))
    decreases |es|
  {
    if es != [] {
      if es[0].Connected? {
        OfferedKinds(s.(connected := true), es[0].listener);
      }
      assert NeverConnects(AcceptedIn(s, es[0]));
      AcceptedKinds(Step(s, es[0]), es[1..]);
    }
  }

  lemma {:induction false} DataMembers(ps: seq<PacketState>)
    ensures forall p :: p in Data(ps) <==> p in ps && p.kind != TYPE_CONNECT
  {
    if ps != [] {
      DataMembers(ps[1..]);
      assert ps == [ps[0]] + ps[1..];
    }
  }

  lemma AllSendable(ps: seq<PacketState>, sent: seq<PacketState>)
    requires (forall k :: 0 <= k < |sent| ==> Sendable(sent[k])) && ps == Data(sent)
    ensures forall k :: 0 <= k < |ps| ==> Sendable(ps[k])
  {
    DataMembers(sent);
    forall k | 0 <= k < |ps|
      ensures Sendable(ps[k])
    {
      assert ps[k] in sent;
    }
  }

  /** Connect packets stay connect packets on the wire, and no others become one. */
  lemma {:induction false} DataOnWires(sent: seq<PacketState>, data: seq<PacketState>)
    requires (forall k :: 0 <= k < |sent| ==> Sendable(sent[k])) && data == Data(sent) && NeverConnects(data)
    requires forall k :: 0 <= k < |data| ==> Sendable(data[k])
    ensures Data(OnWires(sent)) == OnWires(data)
  {
    if sent != [] {
      var rest := Data(sent[1..]);
      assert Sendable(sent[0]);
      AllSendable(rest, sent[1..]);
      if sent[0].kind == TYPE_CONNECT {
        assert data == rest;
      } else {
        assert data == [sent[0]] + rest && data[0] in data && data[1..] == rest;
      }
      DataOnWires(sent[1..], rest);
    }
  }

  /** The receiver of all that a fresh socket sent, connect packets included, is given exactly the accepted
      packets beside the connect packets, in order, once the socket is connected: if and only if every
      attachment is a binary message. */
  lemma EmittedIsDelivered(t: JsonText, s: SocketState, es: seq<Event>, accepted: seq<PacketState>)
    requires Lawful(t) && QueueOk(s) && s.sent == [] && s.queue == [] && Closed !in es && Run(s, es).connected
    requires forall k :: 0 <= k < |Run(s, es).sent| ==> Sendable(Run(s, es).sent[k])
    requires accepted == AcceptedRun(s, es) && forall k :: 0 <= k < |accepted| ==> Sendable(accepted[k])
    ensures Data(Receive(t, None, StreamOf(t, Run(s, es).sent)).1) == OnWires(accepted)
       <==> forall k :: 0 <= k < |accepted| ==> AllBinary(Binaries(accepted[k].message))
  {
    AllSentOnceConnected(s, es);
    AcceptedKinds(s, es);
    SentIsDelivered(t, Run(s, es).sent, accepted);
  }

  lemma SentIsDelivered(t: JsonText, sent: seq<PacketState>, data: seq<PacketState>)
    requires Lawful(t) && forall k :: 0 <= k < |sent| ==> Sendable(sent[k])
    requires data == Data(sent) && NeverConnects(data) && forall k :: 0 <= k < |data| ==> Sendable(data[k])
    ensures Data(Receive(t, None, StreamOf(t, sent)).1) == OnWires(data)
       <==> forall k :: 0 <= k < |data| ==> AllBinary(Binaries(data[k].message))
  {
    var received := Receive(t, None, StreamOf(t, sent)).1;
    DataMembers(sent);
    if forall k :: 0 <= k < |data| ==> AllBinary(Binaries(data[k].message)) {
      forall k | 0 <= k < |sent|
        ensures AllBinary(Binaries(sent[k].message))
      {
        assert Sendable(sent[k]) && (sent[k].kind != TYPE_CONNECT ==> sent[k] in data);
      }
      StreamRoundTrip(t, sent);
      DataOnWires(sent, data);
    } else {
      var k :| 0 <= k < |data| && !AllBinary(Binaries(data[k].message));
      OnWiresAt(data, k);
      ReceiveBinaries(t, None, StreamOf(t, sent));
      DataMembers(received);
      assert OnWire(data[k]).message == data[k].message;
    }
  }

  // ----- the ack table over runs -----

  /** The ack ids that the accepted event packets carry. */
  function AckIds(ps: seq<PacketState>): seq<int> {
    if ps == [] then []
    else
      var isEvent := Determined(if ps[0].kind < 0 then 0 else ps[0].kind) == TYPE_EVENT;
      (if isEvent && ps[0].packId >= 0 then [ps[0].packId] else [])
         + AckIds(ps[1..])
  }

  lemma {:induction false} AckIdsAppend(a: seq<PacketState>, b: seq<PacketState>)
    ensures AckIds(a + b) == AckIds(a) + AckIds(b)
  {
    if a == [] {
      assert a + b == b;
    } else {
      assert (a + b)[1..] == a[1..] + b;
      AckIdsAppend(a[1..], b);
    }
  }

  /** Of the ack ids handed out so far (`issued`), each is either waiting or has fired, once. */
  ghost predicate AcksOk(s: SocketState, issued: seq<int>) {
    && (forall k :: 0 <= k < |issued| ==> 0 <= issued[k] < s.nextId)
    && (forall j, k :: 0 <= j < k < |issued| ==> issued[j] < issued[k])
    && (forall id: nat :: id in issued <==> id in s.acks || id in s.fired)
    && (forall id :: id in s.fired ==> id !in s.acks)
    && (forall j, k :: 0 <= j < k < |s.fired| ==> s.fired[j] != s.fired[k])
  }

  lemma Regroup(a: seq<int>, b: seq<int>, c: seq<int>)
    ensures a + b + c == a + (b + c)
  {
  }

  lemma CallAcks(s: SocketState, c: Call, issued: seq<int>)
    requires s.attached && AcksOk(s, issued)
    ensures Do(s, c).attached && AcksOk(Do(s, c), issued + AckIds(Offered(s, c)))
  {
    var ps := Offered(s, c);
    if c.Emit? && c.wantsAck {
      assert AckIds(ps) == [s.nextId];
      assert forall id: int :: id in issued + [s.nextId] <==> id in issued || id == s.nextId;
    } else {
      assert AckIds(ps) == [];
      assert issued + [] == issued;
    }
  }

  lemma {:induction false} CallsAcks(s: SocketState, cs: seq<Call>, issued: seq<int>)
    requires s.attached && AcksOk(s, issued)
    ensures DoAll(s, cs).attached && AcksOk(DoAll(s, cs), issued + AckIds(OfferedAll(s, cs)))
    decreases |cs|
  {
    if cs == [] {
      assert issued + [] == issued;
    } else {
      CallAcks(s, cs[0], issued);
      var issued' := issued + AckIds(Offered(s, cs[0]));
      CallsAcks(Do(s, cs[0]), cs[1..], issued');
      AckIdsAppend(Offered(s, cs[0]), OfferedAll(Do(s, cs[0]), cs[1..]));
      Regroup(issued, AckIds(Offered(s, cs[0])), AckIds(OfferedAll(Do(s, cs[0]), cs[1..])));
    }
  }

  lemma StepAcks(s: SocketState, e: Event, issued: seq<int>)
    requires s.attached && AcksOk(s, issued) && e != Closed
    ensures Step(s, e).attached && AcksOk(Step(s, e), issued + AckIds(AcceptedIn(s, e)))
  {
    assert issued + [] == issued;
    match e
    case Api(c) => CallAcks(s, c, issued);
    case Connected(listener) =>
      if !s.connected {
        CallsAcks(s.(connected := true), listener, issued);
      }
    case AckReceived(id) =>
      if id in s.acks {
        assert forall i :: i in s.fired + [id] <==> i in s.fired || i == id;
      }
    case _ =>
  }

  /** Every ack callback fires at most once, and only in reply to the packet that carried its id:
      over any run the ids handed out are distinct, and each is waiting or has fired, never both. */
  lemma {:induction false} AcksFireOnce(s: SocketState, es: seq<Event>, issued: seq<int>)
    requires s.attached && AcksOk(s, issued) && Closed !in es
    ensures AcksOk(Run(s, es), issued + AckIds(AcceptedRun(s, es)))
    decreases |es|
  {
    if es == [] {
      assert issued + [] == issued;
    } else {
      StepAcks(s, es[0], issued);
      var issued' := issued + AckIds(AcceptedIn(s, es[0]));
      AcksFireOnce(Step(s, es[0]), es[1..], issued');
      AckIdsAppend(AcceptedIn(s, es[0]), AcceptedRun(Step(s, es[0]), es[1..]));
      Regroup(issued, AckIds(AcceptedIn(s, es[0])), AckIds(AcceptedRun(Step(s, es[0]), es[1..])));
    }
  }
}
