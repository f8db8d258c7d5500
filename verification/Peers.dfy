/** Runs of atomic passes by any number of peers (src/wrtc_peer.cpp, src/sio.cpp). */
module Peers {
  import opened Options
  import opened Channels
  import opened TopicReaders
  import opened TopicWriters
  import opened Reconcile
  import opened Requests
  import opened Agreement

  /** `peers` holds the objects that may still make passes, by their identity; `names` is `connected_peers`,
      which finds them by their ids. `left` is what was given up so far without being deregistered. */
  datatype World = World(peers: map<nat, Peer>, names: map<string, nat>, shared: Shared, nextPeer: nat, left: Left)

  const NOTHING := World(map[], map[], Shared([], map[], map[], Writers(map[], map[])), 0, Left({}, {}))

  datatype Event =
    | Connect(name: string, reqRead: seq<string>, reqWrite: seq<WriteRequest>)
    | AddRead(name: string, topic: string)
    | RemoveRead(name: string, topic: string)
    | AddWrite(name: string, topic: string, msgType: string)
    | RemoveWrite(name: string, topic: string)
    | PeerFailed(name: string)           // the peer reports that its connection failed
    | PassOf(peer: nat, env: Env)
    | Disconnect(name: string, env: Env)

  function NewPeer(id: nat, pc: nat, reqRead: seq<string>, reqWrite: seq<WriteRequest>): Peer {
    Peer(id, true, Some(pc), false, map[], map[], map[], {}, WithReads([], reqRead), WithWrites([], reqWrite),
         false, false, 0)
  }

  /** What `onDisconnected` does before its pass. */
  function Leaving(p: Peer): Peer {
    p.(reqRead := [], reqWrite := [], connected := false)
  }

  /** A change of a peer that touches neither its channels nor the registries. */
  function Asked(p: Peer, e: Event): Peer {
    match e
    case AddRead(_, t) => p.(reqRead := WithRead(p.reqRead, t))
    case RemoveRead(_, t) => p.(reqRead := WithoutRead(p.reqRead, t))
    case AddWrite(_, t, msgType) => p.(reqWrite := WithWrite(p.reqWrite, t, msgType))
    case RemoveWrite(_, t) => p.(reqWrite := Purged(p.reqWrite, t))
    case PeerFailed(_) => p.(needsRestart := true)
    case _ => p
  }

  /** `getConnectedPeer` finds an object. */
  predicate Finds(w: World, name: string) {
    name in w.names && w.names[name] in w.peers
  }

  /** `emplace` does not replace an entry of `connected_peers`: an object that connects under an id in use
      is never found. */
  function Connected(w: World, name: string, reqRead: seq<string>, reqWrite: seq<WriteRequest>): World {
    w.(peers := w.peers[w.nextPeer := NewPeer(w.nextPeer, |w.shared.created|, reqRead, reqWrite)],
       names := if name in w.names then w.names else w.names[name := w.nextPeer],
       shared := Created(w.shared, Owner(Connection, w.nextPeer, "")), nextPeer := w.nextPeer + 1)
  }

  function Passed(w: World, i: nat, env: Env): World
    requires i in w.peers
  {
    var (p, s) := Pass(w.peers[i], w.shared, env);
    w.(peers := w.peers[i := p], shared := s, left := LeftBy(w.peers[i], IsReconnect(w.peers[i], env), w.left))
  }

  function Disconnected(w: World, name: string, env: Env): World
    requires Finds(w, name)
  {
    var p := Leaving(w.peers[w.names[name]]);
    w.(peers := w.peers - {w.names[name]}, names := w.names - {name}, shared := Pass(p, w.shared, env).1,
       left := LeftBy(p, false, w.left))
  }

  /** One step; a step of a peer that is not there changes nothing. */
  function Step(w: World, e: Event): World {
    match e
    case Connect(name, reqRead, reqWrite) => Connected(w, name, reqRead, reqWrite)
    case PassOf(i, env) => if i in w.peers then Passed(w, i, env) else w
    case Disconnect(name, env) => if Finds(w, name) then Disconnected(w, name, env) else w
    case _ =>
      if Finds(w, e.name) then w.(peers := w.peers[w.names[e.name] := Asked(w.peers[w.names[e.name]], e)]) else w
  }

  function Run(w: World, es: seq<Event>): World
    decreases |es|
  {
    if es == [] then w else Run(Step(w, es[0]), es[1..])
  }

  // ----- the invariant -----

  ghost predicate PeerOk(i: nat, p: Peer) {
    p.id == i && p.connected && p.pc.Some?
  }

  /** Nothing is registered for an object that is gone, unless it was given up. */
  ghost predicate NoOrphans(w: World) {
    && (forall t, x ::
          (t, x) in Outputs(w.shared.readers) && (t, x) !in w.left.outputs && x.serial < |w.shared.created| ==>
          w.shared.created[x.serial].peer in w.peers)
    && (forall t, x ::
          (t, x) in Inputs(w.shared.writers) && (t, x) !in w.left.inputs && x.serial < |w.shared.created| ==>
          w.shared.created[x.serial].peer in w.peers)
    && (forall t, x :: (t, x) in Outputs(w.shared.media) && x.serial < |w.shared.created| ==>
          w.shared.created[x.serial].peer in w.peers)
  }

  ghost predicate PeersOk(w: World) {
    && (forall i :: i in w.peers ==> i < w.nextPeer && PeerOk(i, w.peers[i]))
    && (forall i :: i in w.peers ==> Agrees(w.peers[i], w.shared, w.left))
  }

  /** Every id finds an object of its own. */
  ghost predicate NamesOk(w: World) {
    && (forall n :: n in w.names ==> w.names[n] in w.peers)
    && (forall n, m :: n in w.names && m in w.names && w.names[n] == w.names[m] ==> n == m)
  }

  ghost predicate Ok(w: World) {
    SharedOk(w.shared, w.left) && PeersOk(w) && NoOrphans(w) && NamesOk(w)
    && (forall k :: 0 <= k < |w.shared.created| ==> w.shared.created[k].peer < w.nextPeer)
  }

  // ----- what every step keeps -----

  lemma NothingIsOk()
    ensures Ok(NOTHING)
  {
    assert Outputs(map[]) == {} && Inputs(Writers(map[], map[])) == {};
  }

  /** One object's own step, seen from every other object. */
  lemma OthersKeep(w: World, i: nat, s': Shared, left': Left)
    requires Ok(w) && Differs(i, w.shared, w.left, s', left')
    ensures forall j :: j in w.peers && j != i ==> Agrees(w.peers[j], s', left')
  {
    forall j | j in w.peers && j != i
      ensures Agrees(w.peers[j], s', left')
    {
      PeersApart(i, w.peers[j], w.shared, w.left, s', left');
    }
  }

  ghost predicate Unregistered(i: nat, s: Shared, left: Left) {
    && (forall t, x :: (t, x) in Outputs(s.readers) && (t, x) !in left.outputs && x.serial < |s.created| ==>
          s.created[x.serial].peer != i)
    && (forall t, x :: (t, x) in Inputs(s.writers) && (t, x) !in left.inputs && x.serial < |s.created| ==>
          s.created[x.serial].peer != i)
    && (forall t, x :: (t, x) in Outputs(s.media) && x.serial < |s.created| ==> s.created[x.serial].peer != i)
  }

  /** A difference in one object's channels only: the owners of all others are where they were. */
  lemma OrphansOfOne(w: World, i: nat, w': World)
    requires Ok(w) && Differs(i, w.shared, w.left, w'.shared, w'.left)
    requires forall j :: j in w.peers && j != i ==> j in w'.peers
    requires i in w'.peers || Unregistered(i, w'.shared, w'.left)
    ensures NoOrphans(w')
  {
  }

  lemma PeerChanged(w: World, i: nat, p': Peer, s': Shared, left': Left)
    requires Ok(w) && i in w.peers
    requires SharedOk(s', left') && PeerOk(i, p') && Agrees(p', s', left') && Differs(i, w.shared, w.left, s', left')
    ensures Ok(w.(peers := w.peers[i := p'], shared := s', left := left'))
  {
    var w' := w.(peers := w.peers[i := p'], shared := s', left := left');
    OthersKeep(w, i, s', left');
    PeersStay(w, i, p', s', left');
    OrphansOfOne(w, i, w');
    assert NamesOk(w');
  }

  lemma PeersStay(w: World, i: nat, p': Peer, s': Shared, left': Left)
    requires PeersOk(w) && i < w.nextPeer && PeerOk(i, p') && Agrees(p', s', left')
    requires forall j :: j in w.peers && j != i ==> Agrees(w.peers[j], s', left')
    ensures PeersOk(w.(peers := w.peers[i := p'], shared := s', left := left'))
  {
  }

  lemma PassOfKeeps(w: World, i: nat, env: Env)
    requires Ok(w) && i in w.peers
    ensures Ok(Passed(w, i, env))
  {
    var (p, s) := Pass(w.peers[i], w.shared, env);
    PassKeeps(w.peers[i], w.shared, env, w.left);
    PassRequests(w.peers[i], w.shared, env);
    PeerChanged(w, i, p, s, LeftBy(w.peers[i], IsReconnect(w.peers[i], env), w.left));
  }

  predicate IsRequest(e: Event) {
    !e.Connect? && !e.PassOf? && !e.Disconnect?
  }

  lemma AskedKeeps(w: World, e: Event)
    requires Ok(w) && IsRequest(e) && Finds(w, e.name)
    ensures Ok(Step(w, e))
  {
    var p := w.peers[w.names[e.name]];
    var p' := Asked(p, e);
    assert p' == p.(reqRead := p'.reqRead, reqWrite := p'.reqWrite, needsRestart := p'.needsRestart);
    PeerChanged(w, w.names[e.name], p', w.shared, w.left);
  }

  lemma PeerGone(w: World, name: string, s': Shared, left': Left)
    requires Ok(w) && Finds(w, name) && SharedOk(s', left')
    requires Differs(w.names[name], w.shared, w.left, s', left') && Unregistered(w.names[name], s', left')
    ensures Ok(w.(peers := w.peers - {w.names[name]}, names := w.names - {name}, shared := s', left := left'))
  {
    var i := w.names[name];
    OthersKeep(w, i, s', left');
    OrphansOfOne(w, i, w.(peers := w.peers - {i}, names := w.names - {name}, shared := s', left := left'));
  }

  /** A peer with no channel and no track in use has nothing registered but what it gave up. */
  lemma NothingOpen(p: Peer, s: Shared, left: Left)
    requires SharedOk(s, left) && Agrees(p, s, left) && p.outbound == map[] && p.inbound == map[] && p.inUse == {}
    ensures Unregistered(p.id, s, left)
  {
  }

  /** The last pass of a peer leaves nothing of it registered but what it gave up. */
  lemma LeavingKeeps(p: Peer, s: Shared, env: Env, left: Left)
    requires SharedOk(s, left) && Agrees(p, s, left)
    ensures var (p', s') := Pass(Leaving(p), s, env);
            var left' := LeftBy(Leaving(p), false, left);
            SharedOk(s', left') && Differs(p.id, s, left, s', left') && Unregistered(p.id, s', left')
  {
    var q := Leaving(p);
    var (p', s') := Pass(q, s, env);
    PassKeeps(q, s, env, left);
    PassReconciles(q, s, env);
    assert p'.outbound.Keys == {} && p'.inbound.Keys == {} && p'.inUse == {};
    NothingOpen(p', s', LeftBy(q, false, left));
  }

  lemma DisconnectKeeps(w: World, name: string, env: Env)
    requires Ok(w) && Finds(w, name)
    ensures Ok(Disconnected(w, name, env))
  {
    var p := w.peers[w.names[name]];
    LeavingKeeps(p, w.shared, env, w.left);
    PeerGone(w, name, Pass(Leaving(p), w.shared, env).1, LeftBy(Leaving(p), false, w.left));
  }

  lemma NewPeerAgrees(s: Shared, left: Left, id: nat, reqRead: seq<string>, reqWrite: seq<WriteRequest>)
    requires SharedOk(s, left) && forall k :: 0 <= k < |s.created| ==> s.created[k].peer < id
    ensures var s' := Created(s, Owner(Connection, id, ""));
            SharedOk(s', left) && Agrees(NewPeer(id, |s.created|, reqRead, reqWrite), s', left)
            && Differs(id, s, left, s', left)
  {
    var p := NewPeer(id, |s.created|, reqRead, reqWrite);
    var q := p.(pc := None);
    assert Agrees(q, s, left);
    CreatedKeeps(q, s, Owner(Connection, id, ""), left);
  }

  lemma ConnectedPeersOk(w: World, name: string, reqRead: seq<string>, reqWrite: seq<WriteRequest>)
    requires Ok(w)
    ensures var w' := Connected(w, name, reqRead, reqWrite);
            SharedOk(w'.shared, w.left) && Differs(w.nextPeer, w.shared, w.left, w'.shared, w.left) && PeersOk(w')
  {
    var w' := Connected(w, name, reqRead, reqWrite);
    NewPeerAgrees(w.shared, w.left, w.nextPeer, reqRead, reqWrite);
    OthersKeep(w, w.nextPeer, w'.shared, w.left);
  }

  lemma ConnectedNamesOk(w: World, name: string, reqRead: seq<string>, reqWrite: seq<WriteRequest>)
    requires PeersOk(w) && NamesOk(w)
    ensures NamesOk(Connected(w, name, reqRead, reqWrite))
  {
  }

  lemma ConnectKeeps(w: World, name: string, reqRead: seq<string>, reqWrite: seq<WriteRequest>)
    requires Ok(w)
    ensures Ok(Connected(w, name, reqRead, reqWrite))
  {
    ConnectedPeersOk(w, name, reqRead, reqWrite);
    ConnectedNamesOk(w, name, reqRead, reqWrite);
    OrphansOfOne(w, w.nextPeer, Connected(w, name, reqRead, reqWrite));
  }
}
