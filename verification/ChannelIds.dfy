/** The 16-bit ids of a peer's data channels over every run (include/phntm_bridge/wrtc_peer.hpp,
    `openDataChannelForTopic` of src/wrtc_peer.cpp). */
module ChannelIds {
  import opened Options
  import opened Channels
  import opened TopicReaders
  import opened TopicWriters
  import opened Reconcile
  import opened Agreement
  import opened Peers
  import opened PeerRuns

  predicate IsOpenBy(o: Owner, i: nat) {
    o.peer == i && (o.use == Read || o.use == Write)
  }

  /** How many data channels peer `i` has opened. */
  function Opened(created: seq<Owner>, i: nat): nat
    decreases |created|
  {
    if created == [] then 0
    else Opened(created[..|created| - 1], i) + (if IsOpenBy(created[|created| - 1], i) then 1 else 0)
  }

  /** How many channels peer `i` had opened when it opened the one with serial number k, this one included. */
  function Nth(created: seq<Owner>, i: nat, k: nat): nat
    requires k < |created|
  {
    Opened(created[..k + 1], i)
  }

  /** The id given to the data channel with serial number k of peer `i`. */
  function IdAt(created: seq<Owner>, i: nat, k: nat): nat
    requires k < |created|
  {
    Nth(created, i, k) % 0x1_0000
  }

  ghost predicate Carries(created: seq<Owner>, i: nat, m: map<string, Channel>) {
    forall t :: t in m ==> m[t].serial < |created| && m[t].id == IdAt(created, i, m[t].serial)
  }

  /** The counter and the ids of the open channels tell how many channels were opened. */
  ghost predicate Numbered(p: Peer, created: seq<Owner>) {
    && p.nextId == Opened(created, p.id) % 0x1_0000
    && Carries(created, p.id, p.outbound) && Carries(created, p.id, p.inbound)
  }

  lemma OpenedAppend(created: seq<Owner>, o: Owner, i: nat)
    ensures Opened(created + [o], i) == Opened(created, i) + (if IsOpenBy(o, i) then 1 else 0)
  {
    assert (created + [o])[..|created|] == created;
  }

  lemma CarriesAppend(created: seq<Owner>, o: Owner, i: nat, m: map<string, Channel>)
    requires Carries(created, i, m)
    ensures Carries(created + [o], i, m)
  {
    forall t | t in m
      ensures IdAt(created + [o], i, m[t].serial) == IdAt(created, i, m[t].serial)
    {
      assert (created + [o])[..m[t].serial + 1] == created[..m[t].serial + 1];
    }
  }

  /** Creating something that is not a data channel of this peer. */
  lemma OtherObject(p: Peer, created: seq<Owner>, o: Owner)
    requires Numbered(p, created) && !IsOpenBy(o, p.id)
    ensures Numbered(p, created + [o])
  {
    OpenedAppend(created, o, p.id);
    CarriesAppend(created, o, p.id, p.outbound);
    CarriesAppend(created, o, p.id, p.inbound);
  }

  lemma NextRemainder(n: nat, count: nat)
    requires n == count % 0x1_0000
    ensures (n + 1) % 0x1_0000 == (count + 1) % 0x1_0000
  {
  }

  /** The counter after the next data channel of this peer. */
  lemma NextId(p: Peer, created: seq<Owner>, o: Owner)
    requires p.nextId == Opened(created, p.id) % 0x1_0000 && IsOpenBy(o, p.id)
    ensures (p.nextId + 1) % 0x1_0000 == Opened(created + [o], p.id) % 0x1_0000
  {
    OpenedAppend(created, o, p.id);
    NextRemainder(p.nextId, Opened(created, p.id));
  }

  lemma LastId(created: seq<Owner>, o: Owner, i: nat)
    ensures IdAt(created + [o], i, |created|) == Opened(created + [o], i) % 0x1_0000
  {
    assert (created + [o])[..|created| + 1] == created + [o];
  }

  lemma NextIsNumbered(p: Peer, created: seq<Owner>, o: Owner)
    requires Numbered(p, created) && IsOpenBy(o, p.id)
    ensures (p.nextId + 1) % 0x1_0000 == Opened(created + [o], p.id) % 0x1_0000
    ensures (p.nextId + 1) % 0x1_0000 == IdAt(created + [o], p.id, |created|)
    ensures Carries(created + [o], p.id, p.outbound) && Carries(created + [o], p.id, p.inbound)
  {
    NextId(p, created, o);
    LastId(created, o, p.id);
    CarriesAppend(created, o, p.id, p.outbound);
    CarriesAppend(created, o, p.id, p.inbound);
  }

  lemma OpenReadNumbered(p: Peer, s: Shared, t: string, env: Env)
    requires Numbered(p, s.created)
    ensures var (p', s') := OpenRead(p, s, t, env); Numbered(p', s'.created) && p'.id == p.id
  {
    if t in p.outbound {
      return;
    }
    NextIsNumbered(p, s.created, Owner(Read, p.id, t));
  }

  lemma OpenWriteNumbered(p: Peer, s: Shared, t: string, env: Env)
    requires Numbered(p, s.created)
    ensures var (p', s') := OpenWrite(p, s, t, env); Numbered(p', s'.created) && p'.id == p.id
  {
    if t in p.inbound {
      return;
    }
    NextIsNumbered(p, s.created, Owner(Write, p.id, t));
  }

  lemma OpenTrackNumbered(p: Peer, s: Shared, t: string)
    requires Numbered(p, s.created)
    ensures var (p', s') := OpenTrack(p, s, t); Numbered(p', s'.created) && p'.id == p.id
  {
    if t in p.tracks {
      return;
    }
    OtherObject(p, s.created, Owner(Media, p.id, t));
  }

  lemma {:induction false} OpenReadsNumbered(p: Peer, s: Shared, ts: seq<string>, env: Env)
    requires Numbered(p, s.created)
    ensures var (p', s') := OpenReads(p, s, ts, env); Numbered(p', s'.created) && p'.id == p.id
    decreases |ts|
  {
    if ts != [] {
      var init, t := ts[..|ts| - 1], ts[|ts| - 1];
      var (q, s1) := OpenReads(p, s, init, env);
      OpenReadsNumbered(p, s, init, env);
      if DataTopic(env, t) {
        OpenReadNumbered(q, s1, t, env);
      } else if MediaTopic(env, t) {
        OpenTrackNumbered(q, s1, t);
      }
    }
  }

  lemma {:induction false} OpenWritesNumbered(p: Peer, s: Shared, reqs: seq<WriteRequest>, env: Env)
    requires Numbered(p, s.created)
    ensures var (p', s') := OpenWrites(p, s, reqs, env); Numbered(p', s'.created) && p'.id == p.id
    decreases |reqs|
  {
    if reqs != [] {
      var init, t := reqs[..|reqs| - 1], reqs[|reqs| - 1].topic;
      var (q, s1) := OpenWrites(p, s, init, env);
      OpenWritesNumbered(p, s, init, env);
      OpenWriteNumbered(q, s1, t, env);
    }
  }

  lemma CloseAllNumbered(p: Peer, s: Shared, close: bool)
    requires Numbered(p, s.created)
    ensures var (p', s') := CloseAll(p, s, close);
            Numbered(p', s'.created) && s'.created == s.created && p'.id == p.id
  {
    AllClosed(p, s, close);
  }

  lemma OpenAllNumbered(p: Peer, s: Shared, env: Env)
    requires Numbered(p, s.created)
    ensures var (p', s') := OpenAll(p, s, env); Numbered(p', s'.created) && p'.id == p.id
  {
    var (p1, s1) := OpenReads(p, s, p.reqRead, env);
    OpenReadsNumbered(p, s, p.reqRead, env);
    OpenWritesNumbered(p1, s1, p.reqWrite, env);
  }

  lemma RestartedNumbered(p: Peer, s: Shared, reconnect: bool)
    requires Numbered(p, s.created)
    ensures var (p', s') := Restarted(p, s, reconnect); Numbered(p', s'.created) && p'.id == p.id
  {
    if reconnect {
      OtherObject(p, s.created, Owner(Connection, p.id, ""));
    }
  }

  lemma PassNumbered(p: Peer, s: Shared, env: Env)
    requires Numbered(p, s.created)
    ensures var (p', s') := Pass(p, s, env); Numbered(p', s'.created) && p'.id == p.id
  {
    var reconnect := IsReconnect(p, env);
    var (p1, s1) := Restarted(p, s, reconnect);
    RestartedNumbered(p, s, reconnect);
    var (p2, s2) := OpenAll(p1, s1, env);
    OpenAllNumbered(p1, s1, env);
    CloseAllNumbered(p2, s2, reconnect || !p.connected);
  }

  // ----- every run -----

  /** Objects created for another peer change no count. */
  lemma {:induction false} OpenedOfOthers(created: seq<Owner>, created': seq<Owner>, i: nat, j: nat)
    requires created <= created' && i != j
    requires forall k :: |created| <= k < |created'| ==> created'[k].peer == i
    ensures Opened(created', j) == Opened(created, j)
    decreases |created'|
  {
    if |created| < |created'| {
      OpenedOfOthers(created, created'[..|created'| - 1], i, j);
    } else {
      assert created' == created;
    }
  }

  lemma OthersNumbered(q: Peer, created: seq<Owner>, created': seq<Owner>, i: nat)
    requires created <= created' && i != q.id && Numbered(q, created)
    requires forall k :: |created| <= k < |created'| ==> created'[k].peer == i
    ensures Numbered(q, created')
  {
    OpenedOfOthers(created, created', i, q.id);
    forall k | 0 <= k < |created|
      ensures IdAt(created', q.id, k) == IdAt(created, q.id, k)
    {
      assert created'[..k + 1] == created[..k + 1];
    }
  }

  ghost predicate AllNumbered(w: World) {
    forall i :: i in w.peers ==> Numbered(w.peers[i], w.shared.created)
  }

  lemma OthersAllNumbered(w: World, i: nat, s': Shared, left': Left)
    requires AllNumbered(w) && PeersOk(w) && Differs(i, w.shared, w.left, s', left')
    ensures forall j :: j in w.peers && j != i ==> Numbered(w.peers[j], s'.created)
  {
    forall j | j in w.peers && j != i
      ensures Numbered(w.peers[j], s'.created)
    {
      OthersNumbered(w.peers[j], w.shared.created, s'.created, i);
    }
  }

  /** Nobody has opened a channel for a peer that is not there yet. */
  lemma {:induction false} NoneOpened(created: seq<Owner>, i: nat)
    requires forall k :: 0 <= k < |created| ==> created[k].peer < i
    ensures Opened(created, i) == 0
    decreases |created|
  {
    if created != [] {
      NoneOpened(created[..|created| - 1], i);
    }
  }

  lemma PassOfNumbered(w: World, i: nat, p: Peer, env: Env)
    requires Ok(w) && AllNumbered(w) && i in w.peers
    requires p == w.peers[i] || p == Leaving(w.peers[i])
    ensures var (p', s') := Pass(p, w.shared, env);
            Numbered(p', s'.created) && forall j :: j in w.peers && j != i ==> Numbered(w.peers[j], s'.created)
  {
    PassNumbered(p, w.shared, env);
    PassKeeps(p, w.shared, env, w.left);
    OthersAllNumbered(w, i, Pass(p, w.shared, env).1, LeftBy(p, IsReconnect(p, env), w.left));
  }

  lemma ConnectNumbered(w: World, name: string, reqRead: seq<string>, reqWrite: seq<WriteRequest>)
    requires Ok(w) && AllNumbered(w)
    ensures AllNumbered(Connected(w, name, reqRead, reqWrite))
  {
    var o := Owner(Connection, w.nextPeer, "");
    NoneOpened(w.shared.created, w.nextPeer);
    OpenedAppend(w.shared.created, o, w.nextPeer);
    forall j | j in w.peers
      ensures Numbered(w.peers[j], w.shared.created + [o])
    {
      OtherObject(w.peers[j], w.shared.created, o);
    }
  }

  lemma AskedNumbered(w: World, e: Event)
    requires AllNumbered(w) && IsRequest(e) && Finds(w, e.name)
    ensures AllNumbered(Step(w, e))
  {
    var p := w.peers[w.names[e.name]];
    var p' := Asked(p, e);
    assert p'.id == p.id && p'.nextId == p.nextId && p'.outbound == p.outbound && p'.inbound == p.inbound;
  }

  lemma DisconnectNumbered(w: World, name: string, env: Env)
    requires Ok(w) && AllNumbered(w) && Finds(w, name)
    ensures AllNumbered(Disconnected(w, name, env))
  {
    PassOfNumbered(w, w.names[name], Leaving(w.peers[w.names[name]]), env);
  }

  lemma PassedNumbered(w: World, i: nat, env: Env)
    requires Ok(w) && AllNumbered(w) && i in w.peers
    ensures AllNumbered(Passed(w, i, env))
  {
    PassOfNumbered(w, i, w.peers[i], env);
  }

  // ----- distinct ids -----

  /** Opening order is counting order. */
  lemma {:induction false} OpenedGrows(created: seq<Owner>, i: nat, k: nat)
    requires k <= |created|
    ensures Opened(created[..k], i) <= Opened(created, i)
    decreases |created|
  {
    if k < |created| {
      var init := created[..|created| - 1];
      OpenedGrows(init, i, k);
      assert init[..k] == created[..k];
    } else {
      assert created[..k] == created;
    }
  }

  lemma OpenedBefore(created: seq<Owner>, i: nat, k: nat, l: nat)
    requires k < l < |created| && IsOpenBy(created[l], i)
    ensures Nth(created, i, k) < Nth(created, i, l) <= Opened(created, i)
  {
    OpenedGrows(created[..l], i, k + 1);
    assert created[..l][..k + 1] == created[..k + 1] && created[..l + 1][..l] == created[..l];
    OpenedGrows(created, i, l + 1);
  }

  /** Two channels a peer ever opened share an id exactly when a multiple of 65536 opens lies between
      them; so over the first 65535 opens no id is used twice, and none is 0. */
  lemma IdsReused(created: seq<Owner>, i: nat, k: nat, l: nat)
    requires k < l < |created| && IsOpenBy(created[k], i) && IsOpenBy(created[l], i)
    ensures IdAt(created, i, k) == IdAt(created, i, l) <==>
            (Nth(created, i, l) - Nth(created, i, k)) % 0x1_0000 == 0
    ensures Opened(created, i) <= 0xFFFF ==>
            IdAt(created, i, k) != IdAt(created, i, l) && IdAt(created, i, k) != 0 && IdAt(created, i, l) != 0
  {
    OpenedBefore(created, i, k, l);
    assert Nth(created, i, k) > 0 by {
      assert created[..k + 1][..k] == created[..k];
    }
    Remainders(Nth(created, i, k), Nth(created, i, l));
  }

  lemma Remainders(a: nat, b: nat)
    ensures a % 0x1_0000 == b % 0x1_0000 <==> (b - a) % 0x1_0000 == 0
    ensures 0 < a < b <= 0xFFFF ==> a % 0x1_0000 != b % 0x1_0000 && a % 0x1_0000 != 0 && b % 0x1_0000 != 0
  {
  }
}
