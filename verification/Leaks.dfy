/** When the registries hold exactly what the connected peers have open, and the steps that break this for
    ever (src/wrtc_peer.cpp): a reconnect, and a second peer under an id in use. */
module Leaks {
  import opened Options
  import opened Channels
  import opened TopicReaders
  import opened TopicWriters
  import opened Reconcile
  import opened Requests
  import opened Agreement
  import opened Peers
  import opened PeerRuns

  // ----- one kind of channel -----

  function Registered(use: Use, s: Shared): Links {
    match use
    case Connection => {}
    case Read => Outputs(s.readers)
    case Write => Inputs(s.writers)
    case Media => Outputs(s.media)
  }

  /** The peer has `x` open for `t`; a write channel for the heartbeat has no writer and does not count. */
  predicate HasOpen(use: Use, p: Peer, t: string, x: Channel) {
    match use
    case Connection => false
    case Read => t in p.outbound && p.outbound[t] == x
    case Write => t != HEARTBEAT && t in p.inbound && p.inbound[t] == x
    case Media => t in p.inUse && t in p.tracks && p.tracks[t] == x
  }

  /** The topics a peer has open. */
  function OpenTopics(use: Use, p: Peer): set<string> {
    match use
    case Connection => {}
    case Read => p.outbound.Keys
    case Write => p.inbound.Keys - {HEARTBEAT}
    case Media => p.inUse
  }

  /** The topics a pass opens, or finds open. */
  function ToOpen(use: Use, p: Peer, env: Env): set<string> {
    match use
    case Connection => {}
    case Read => DataTopics(p.reqRead, env)
    case Write => WriteTopics(p.reqWrite) - {HEARTBEAT}
    case Media => MediaTopics(p.reqRead, env)
  }

  function LeftOf(use: Use, left: Left): Links {
    match use
    case Read => left.outputs
    case Write => left.inputs
    case _ => {}
  }

  /** What a pass gives up; tracks it keeps. */
  function GivenUp(use: Use, p: Peer, reconnect: bool): map<string, Channel> {
    match use
    case Read => GivenUpReads(p, reconnect)
    case Write => GivenUpWrites(p, reconnect)
    case _ => map[]
  }

  // ----- what leaks -----

  /** The object is not found under any id: it connected under one in use. */
  ghost predicate Hidden(w: World, i: nat) {
    i in w.peers && forall n :: n in w.names ==> w.names[n] != i
  }

  /** A pass that forgets open channels on a reconnect, one that opens something for a hidden object, or the
      last read channel for the heartbeat. */
  ghost predicate StepLeaks(use: Use, w: World, e: Event) {
    match e
    case PassOf(i, env) =>
      i in w.peers &&
      (GivenUp(use, w.peers[i], IsReconnect(w.peers[i], env)) != map[]
       || (Hidden(w, i) && ToOpen(use, w.peers[i], env) != {}))
    case Disconnect(name, env) =>
      Finds(w, name) && GivenUp(use, Leaving(w.peers[w.names[name]]), false) != map[]
    case _ => false
  }

  ghost predicate EverLeaks(use: Use, w: World, es: seq<Event>)
    decreases |es|
  {
    es != [] && (StepLeaks(use, w, es[0]) || EverLeaks(use, Step(w, es[0]), es[1..]))
  }

  /** The same, told by the state. */
  ghost predicate Leaky(use: Use, w: World) {
    LeftOf(use, w.left) != {} || exists i :: Hidden(w, i) && OpenTopics(use, w.peers[i]) != {}
  }

  /** The requests of a hidden object never change, so it closes nothing. */
  ghost predicate HiddenOk(w: World) {
    forall i :: Hidden(w, i) ==>
      && w.peers[i].outbound.Keys <= Topics(w.peers[i].reqRead) && w.peers[i].inUse <= Topics(w.peers[i].reqRead)
      && w.peers[i].inbound.Keys <= WriteTopics(w.peers[i].reqWrite) && w.peers[i].inUse <= w.peers[i].tracks.Keys
  }

  lemma LeftGrows(use: Use, p: Peer, reconnect: bool, left: Left)
    ensures LeftOf(use, LeftBy(p, reconnect, left)) == LeftOf(use, left) + Entries(GivenUp(use, p, reconnect))
  {
  }

  lemma EntriesEmpty(m: map<string, Channel>)
    ensures Entries(m) == {} <==> m == map[]
  {
    EntriesAre(m);
    if m != map[] {
      var t :| t in m;
      assert (t, m[t]) in Entries(m);
    }
  }

  /** What is open or given up after a pass of an object that closes nothing. */
  lemma PassOpens(use: Use, p: Peer, s: Shared, env: Env)
    requires p.inUse <= p.tracks.Keys && p.outbound.Keys <= Topics(p.reqRead) && p.inUse <= Topics(p.reqRead)
    requires p.inbound.Keys <= WriteTopics(p.reqWrite)
    ensures var (p', up) := (Pass(p, s, env).0, GivenUp(use, p, IsReconnect(p, env)));
            OpenTopics(use, p') != {} || up != map[] <==>
            OpenTopics(use, p) != {} || up != map[] || ToOpen(use, p, env) != {}
  {
    PassReconciles(p, s, env);
    if IsReconnect(p, env) {
      assert GivenUpReads(p, true) == p.outbound;
      assert GivenUpWrites(p, true).Keys == p.inbound.Keys - {HEARTBEAT};
    }
  }

  lemma PassHidden(w: World, i: nat, env: Env)
    requires HiddenOk(w) && i in w.peers
    ensures HiddenOk(Passed(w, i, env))
    ensures forall j :: Hidden(Passed(w, i, env), j) <==> Hidden(w, j)
  {
    var w' := Passed(w, i, env);
    HiddenStay(w, w', i);
    if Hidden(w, i) {
      PassReconciles(w.peers[i], w.shared, env);
      PassRequests(w.peers[i], w.shared, env);
    }
  }

  lemma PassStep(use: Use, w: World, i: nat, env: Env)
    requires HiddenOk(w) && i in w.peers
    ensures Leaky(use, Passed(w, i, env)) <==> Leaky(use, w) || StepLeaks(use, w, PassOf(i, env))
  {
    var p, left' := w.peers[i], LeftBy(w.peers[i], IsReconnect(w.peers[i], env), w.left);
    var (p', s') := Pass(p, w.shared, env);
    LeftMore(use, p, IsReconnect(p, env), w.left);
    if Hidden(w, i) {
      PassOpens(use, p, w.shared, env);
    }
    ReplacedLeaks(use, w, i, p', s', left', GivenUp(use, p, IsReconnect(p, env)) != map[], ToOpen(use, p, env) != {});
  }

  /** Only object `i` changed, and the same objects are hidden. */
  lemma HiddenStay(w: World, w': World, i: nat)
    requires w'.names == w.names && i in w.peers && i in w'.peers && w'.peers == w.peers[i := w'.peers[i]]
    ensures forall j :: Hidden(w', j) <==> Hidden(w, j)
    ensures forall j :: j in w.peers && j != i ==> w'.peers[j] == w.peers[j]
  {
  }

  ghost predicate LeakyBut(use: Use, w: World, i: nat) {
    exists j :: j != i && Hidden(w, j) && OpenTopics(use, w.peers[j]) != {}
  }

  lemma LeakyWithout(use: Use, w: World, w': World, i: nat)
    requires forall j :: Hidden(w', j) <==> Hidden(w, j)
    requires forall j :: j in w.peers && j != i ==> j in w'.peers && w'.peers[j] == w.peers[j]
    ensures LeakyBut(use, w', i) <==> LeakyBut(use, w, i)
    ensures Leaky(use, w) <==>
            LeftOf(use, w.left) != {} || LeakyBut(use, w, i) || (Hidden(w, i) && OpenTopics(use, w.peers[i]) != {})
    ensures Leaky(use, w') <==>
            LeftOf(use, w'.left) != {} || LeakyBut(use, w', i) || (Hidden(w', i) && OpenTopics(use, w'.peers[i]) != {})
  {
  }

  /** A step of object `i` that gave something up or not, and would open something for it or not. */
  lemma LeakyAfter(use: Use, w: World, w': World, i: nat, gave: bool, opens: bool)
    requires forall j :: Hidden(w', j) <==> Hidden(w, j)
    requires forall j :: j in w.peers && j != i ==> j in w'.peers && w'.peers[j] == w.peers[j]
    requires LeftOf(use, w'.left) != {} <==> LeftOf(use, w.left) != {} || gave
    requires Hidden(w, i) && Hidden(w', i) ==>
               (OpenTopics(use, w'.peers[i]) != {} || gave <==> OpenTopics(use, w.peers[i]) != {} || gave || opens)
    ensures Leaky(use, w') <==> Leaky(use, w) || gave || (Hidden(w, i) && opens)
  {
    LeakyWithout(use, w, w', i);
  }

  lemma ReplacedLeaks(use: Use, w: World, i: nat, p': Peer, s': Shared, left': Left, gave: bool, opens: bool)
    requires i in w.peers
    requires LeftOf(use, left') != {} <==> LeftOf(use, w.left) != {} || gave
    requires Hidden(w, i) ==>
               (OpenTopics(use, p') != {} || gave <==> OpenTopics(use, w.peers[i]) != {} || gave || opens)
    ensures Leaky(use, w.(peers := w.peers[i := p'], shared := s', left := left')) <==>
            Leaky(use, w) || gave || (Hidden(w, i) && opens)
  {
    var w' := w.(peers := w.peers[i := p'], shared := s', left := left');
    HiddenStay(w, w', i);
    LeakyAfter(use, w, w', i, gave, opens);
  }

  lemma LeftMore(use: Use, p: Peer, reconnect: bool, left: Left)
    ensures LeftOf(use, LeftBy(p, reconnect, left)) != {} <==>
            LeftOf(use, left) != {} || GivenUp(use, p, reconnect) != map[]
  {
    LeftGrows(use, p, reconnect, left);
    EntriesEmpty(GivenUp(use, p, reconnect));
  }

  lemma DisconnectHidden(w: World, name: string, env: Env)
    requires NamesOk(w) && HiddenOk(w) && Finds(w, name)
    ensures forall j :: Hidden(Disconnected(w, name, env), j) <==> Hidden(w, j)
    ensures HiddenOk(Disconnected(w, name, env))
  {
    var w' := Disconnected(w, name, env);
    forall j
      ensures Hidden(w', j) <==> Hidden(w, j)
    {
      if Hidden(w', j) {
        forall n | n in w.names
          ensures w.names[n] != j
        {
          assert n == name || (n in w'.names && w'.names[n] == w.names[n]);
        }
      }
    }
  }

  lemma DisconnectStep(use: Use, w: World, name: string, env: Env)
    requires NamesOk(w) && HiddenOk(w) && Finds(w, name)
    ensures Leaky(use, Disconnected(w, name, env)) <==> Leaky(use, w) || StepLeaks(use, w, Disconnect(name, env))
  {
    var i := w.names[name];
    DisconnectHidden(w, name, env);
    LeftMore(use, Leaving(w.peers[i]), false, w.left);
    LeakyAfter(use, w, Disconnected(w, name, env), i, GivenUp(use, Leaving(w.peers[i]), false) != map[], false);
  }

  lemma ConnectHidden(w: World, name: string, reqRead: seq<string>, reqWrite: seq<WriteRequest>)
    requires PeersOk(w) && HiddenOk(w)
    ensures var w' := Connected(w, name, reqRead, reqWrite);
            HiddenOk(w') && forall j :: j in w.peers ==> (Hidden(w', j) <==> Hidden(w, j))
  {
    var w' := Connected(w, name, reqRead, reqWrite);
    assert forall n :: n in w.names ==> n in w'.names && w'.names[n] == w.names[n];
    assert forall n :: n in w'.names ==> n in w.names || w'.names[n] == w.nextPeer;
  }

  lemma ConnectStep(use: Use, w: World, name: string, reqRead: seq<string>, reqWrite: seq<WriteRequest>)
    requires PeersOk(w) && HiddenOk(w)
    ensures Leaky(use, Connected(w, name, reqRead, reqWrite)) <==> Leaky(use, w)
  {
    var w' := Connected(w, name, reqRead, reqWrite);
    ConnectHidden(w, name, reqRead, reqWrite);
    assert OpenTopics(use, w'.peers[w.nextPeer]) == {};
    assert forall j :: j in w.peers ==> j in w'.peers && w'.peers[j] == w.peers[j];
  }

  lemma RequestStep(use: Use, w: World, e: Event)
    requires HiddenOk(w) && IsRequest(e) && Finds(w, e.name)
    ensures Leaky(use, Step(w, e)) <==> Leaky(use, w)
  {
    HiddenStay(w, Step(w, e), w.names[e.name]);
    LeakyWithout(use, w, Step(w, e), w.names[e.name]);
  }

  lemma RequestHidden(w: World, e: Event)
    requires HiddenOk(w) && IsRequest(e) && Finds(w, e.name)
    ensures HiddenOk(Step(w, e))
  {
    HiddenStay(w, Step(w, e), w.names[e.name]);
  }
}
