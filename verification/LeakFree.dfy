/** The registries hold exactly what the connected peers have open if and only if no step of the run leaked
    (src/wrtc_peer.cpp). */
module LeakFree {
  import opened Options
  import opened Channels
  import opened TopicReaders
  import opened TopicWriters
  import opened Reconcile
  import opened Requests
  import opened Agreement
  import opened Peers
  import opened PeerRuns
  import opened Leaks

  lemma HiddenKept(w: World, e: Event)
    requires PeersOk(w) && NamesOk(w) && HiddenOk(w)
    ensures HiddenOk(Step(w, e))
  {
    if e.Connect? {
      ConnectHidden(w, e.name, e.reqRead, e.reqWrite);
    } else if e.PassOf? {
      if e.peer in w.peers { PassHidden(w, e.peer, e.env); }
    } else if Finds(w, e.name) {
      if e.Disconnect? {
        DisconnectHidden(w, e.name, e.env);
      } else {
        RequestHidden(w, e);
      }
    }
  }

  /** The state tells exactly whether a step leaked. */
  lemma LeakStep(use: Use, w: World, e: Event)
    requires PeersOk(w) && NamesOk(w) && HiddenOk(w)
    ensures Leaky(use, Step(w, e)) <==> Leaky(use, w) || StepLeaks(use, w, e)
  {
    if e.Connect? {
      ConnectStep(use, w, e.name, e.reqRead, e.reqWrite);
    } else if e.PassOf? {
      if e.peer in w.peers { PassStep(use, w, e.peer, e.env); }
    } else if Finds(w, e.name) {
      if e.Disconnect? {
        DisconnectStep(use, w, e.name, e.env);
      } else {
        RequestStep(use, w, e);
      }
    }
  }

  lemma {:induction false} LeakRun(use: Use, w: World, es: seq<Event>)
    requires Ok(w) && HiddenOk(w)
    ensures Leaky(use, Run(w, es)) <==> Leaky(use, w) || EverLeaks(use, w, es)
    decreases |es|
  {
    if es != [] {
      StepKeeps(w, es[0]);
      HiddenKept(w, es[0]);
      LeakStep(use, w, es[0]);
      LeakRun(use, Step(w, es[0]), es[1..]);
    }
  }

  // ----- what it means -----

  /** Some connected peer has `x` open for `t`. */
  ghost predicate ConnectedHasOpen(use: Use, w: World, t: string, x: Channel) {
    exists n :: Finds(w, n) && HasOpen(use, w.peers[w.names[n]], t, x)
  }

  /** Some object has. */
  ghost predicate AnyHasOpen(use: Use, w: World, t: string, x: Channel) {
    exists i :: i in w.peers && HasOpen(use, w.peers[i], t, x)
  }

  lemma RegisteredOf(use: Use, w: World, t: string, x: Channel)
    requires Ok(w)
    ensures (t, x) in Registered(use, w.shared) <==> AnyHasOpen(use, w, t, x) || (t, x) in LeftOf(use, w.left)
    ensures !(AnyHasOpen(use, w, t, x) && (t, x) in LeftOf(use, w.left))
  {
    match use
    case Connection =>
    case Read => OutputsOf(w, t, x);
    case Write => InputsOf(w, t, x);
    case Media => MediaOutputsOf(w, t, x);
  }

  /** No two objects have the same channel open. */
  lemma OpenByOne(use: Use, w: World, i: nat, j: nat, t: string, x: Channel)
    requires Ok(w) && i in w.peers && j in w.peers && HasOpen(use, w.peers[i], t, x) && HasOpen(use, w.peers[j], t, x)
    ensures i == j
  {
    assert Agrees(w.peers[i], w.shared, w.left) && Agrees(w.peers[j], w.shared, w.left);
  }

  lemma SomethingOpen(use: Use, p: Peer, t: string)
    requires p.inUse <= p.tracks.Keys && t in OpenTopics(use, p)
    ensures exists x :: HasOpen(use, p, t, x)
  {
    match use
    case Connection =>
    case Read => assert HasOpen(use, p, t, p.outbound[t]);
    case Write => assert HasOpen(use, p, t, p.inbound[t]);
    case Media => assert HasOpen(use, p, t, p.tracks[t]);
  }

  /** The registry holds exactly what the connected peers have open. */
  ghost predicate Exact(use: Use, w: World) {
    forall t, x :: (t, x) in Registered(use, w.shared) <==> ConnectedHasOpen(use, w, t, x)
  }

  lemma LeakyIsInexact(use: Use, w: World)
    requires Ok(w) && Leaky(use, w)
    ensures !Exact(use, w)
  {
    if z :| z in LeftOf(use, w.left) {
      var (t, x) := z;
      RegisteredOf(use, w, t, x);
      assert !ConnectedHasOpen(use, w, t, x);
    } else {
      var i :| Hidden(w, i) && OpenTopics(use, w.peers[i]) != {};
      var t :| t in OpenTopics(use, w.peers[i]);
      assert Agrees(w.peers[i], w.shared, w.left);
      SomethingOpen(use, w.peers[i], t);
      var x :| HasOpen(use, w.peers[i], t, x);
      RegisteredOf(use, w, t, x);
      if n :| Finds(w, n) && HasOpen(use, w.peers[w.names[n]], t, x) {
        OpenByOne(use, w, i, w.names[n], t, x);
        assert false;
      }
    }
  }

  lemma TightIsExact(use: Use, w: World)
    requires Ok(w) && !Leaky(use, w)
    ensures Exact(use, w)
  {
    forall t, x
      ensures (t, x) in Registered(use, w.shared) <==> ConnectedHasOpen(use, w, t, x)
    {
      RegisteredOf(use, w, t, x);
      if i :| i in w.peers && HasOpen(use, w.peers[i], t, x) {
        assert t in OpenTopics(use, w.peers[i]);
        assert !Hidden(w, i);
      }
    }
  }

  /** In every run the outputs of readers, the inputs of writers or the outputs of media readers are exactly
      what the connected peers have open if and only if no step of the run leaked. */
  lemma ExactIffNoLeak(use: Use, es: seq<Event>)
    ensures Exact(use, Run(NOTHING, es)) <==> !EverLeaks(use, NOTHING, es)
  {
    var w := Run(NOTHING, es);
    NothingIsOk();
    RunKeeps(NOTHING, es);
    LeakRun(use, NOTHING, es);
    if Leaky(use, w) {
      LeakyIsInexact(use, w);
    } else {
      TightIsExact(use, w);
    }
  }

  /** When no peer is connected any more, nothing is registered if and only if no step leaked; so then there
      is no reader, no media reader and no publisher. */
  lemma NobodyLeft(es: seq<Event>)
    requires Run(NOTHING, es).names == map[]
    ensures var s := Run(NOTHING, es).shared;
            s.readers == map[] <==> !EverLeaks(Read, NOTHING, es)
    ensures var s := Run(NOTHING, es).shared;
            s.media == map[] <==> !EverLeaks(Media, NOTHING, es)
    ensures var ws := Run(NOTHING, es).shared.writers;
            (forall t :: t in ws.byTopic ==> ws.byTopic[t] == Writer([], false)) <==> !EverLeaks(Write, NOTHING, es)
  {
    NothingIsOk();
    RunKeeps(NOTHING, es);
    var s := Run(NOTHING, es).shared;
    NoOutputs(s.readers);
    NoOutputs(s.media);
    NoInputs(s.writers);
    NothingRegistered(Read, es);
    NothingRegistered(Media, es);
    NothingRegistered(Write, es);
  }

  lemma NothingRegistered(use: Use, es: seq<Event>)
    requires Run(NOTHING, es).names == map[]
    ensures Registered(use, Run(NOTHING, es).shared) == {} <==> !EverLeaks(use, NOTHING, es)
  {
    ExactIffNoLeak(use, es);
    NobodyExact(use, Run(NOTHING, es));
  }

  lemma NobodyExact(use: Use, w: World)
    requires w.names == map[]
    ensures Exact(use, w) <==> Registered(use, w.shared) == {}
  {
    if z :| z in Registered(use, w.shared) {
      assert (z.0, z.1) in Registered(use, w.shared);
    }
  }

  lemma NoOutputs(rs: map<string, Reader>)
    requires ReadersOk(rs)
    ensures Outputs(rs) == {} <==> rs == map[]
  {
    if t :| t in rs {
      assert (t, rs[t].outputs[0]) in Outputs(rs);
    }
  }

  lemma NoInputs(ws: Writers)
    requires Indexed(ws)
    ensures Inputs(ws) == {} <==> forall t :: t in ws.byTopic ==> ws.byTopic[t] == Writer([], false)
  {
    if t :| t in ws.byTopic && ws.byTopic[t].inputs != [] {
      assert (t, ws.byTopic[t].inputs[0]) in Inputs(ws);
    }
  }

  // ----- names of topics -----

  /** The topics a step observes have names of ROS: they start with a slash. */
  predicate Rooted(e: Event) {
    (e.PassOf? || e.Disconnect?) ==> forall t :: t in e.env.kinds ==> t != "" && t[0] == '/'
  }

  ghost predicate ReadsNoHeartbeat(p: Peer) {
    HEARTBEAT !in p.outbound && p.inUse <= p.tracks.Keys
  }

  ghost predicate NoHeartbeatRead(w: World) {
    forall i :: i in w.peers ==> ReadsNoHeartbeat(w.peers[i])
  }

  lemma PassNoHeartbeat(p: Peer, s: Shared, env: Env)
    requires ReadsNoHeartbeat(p) && HEARTBEAT !in env.kinds
    ensures ReadsNoHeartbeat(Pass(p, s, env).0)
  {
    PassReconciles(p, s, env);
  }

  lemma StepNoHeartbeat(w: World, e: Event)
    requires NoHeartbeatRead(w) && Rooted(e)
    ensures NoHeartbeatRead(Step(w, e))
  {
    if e.PassOf? {
      if e.peer in w.peers {
        PassNoHeartbeat(w.peers[e.peer], w.shared, e.env);
      }
      return;
    }
    if e.Disconnect? || e.Connect? {
      return;
    }
  }

  lemma {:induction false} RunNoHeartbeat(w: World, es: seq<Event>)
    requires NoHeartbeatRead(w) && forall k :: 0 <= k < |es| ==> Rooted(es[k])
    ensures NoHeartbeatRead(Run(w, es))
    decreases |es|
  {
    if es != [] {
      StepNoHeartbeat(w, es[0]);
      RunNoHeartbeat(Step(w, es[0]), es[1..]);
    }
  }

  /** When topics have names of ROS, no read channel for the heartbeat ever opens, and only a reconnect or a
      pass of an object that connected under an id in use can leak. */
  lemma OnlyReconnectsAndSecondPeersLeak(use: Use, es: seq<Event>, e: Event)
    requires forall k :: 0 <= k < |es| ==> Rooted(es[k])
    ensures var w := Run(NOTHING, es);
            forall i :: i in w.peers ==> HEARTBEAT !in w.peers[i].outbound
    ensures var w := Run(NOTHING, es);
            StepLeaks(use, w, e) ==>
              e.PassOf? && e.peer in w.peers && (IsReconnect(w.peers[e.peer], e.env) || Hidden(w, e.peer))
  {
    var w := Run(NOTHING, es);
    RunNoHeartbeat(NOTHING, es);
    if e.Disconnect? && Finds(w, e.name) {
      KeepsAll(use, Leaving(w.peers[w.names[e.name]]));
    } else if e.PassOf? && e.peer in w.peers {
      KeepsAll(use, w.peers[e.peer]);
    }
  }

  lemma KeepsAll(use: Use, p: Peer)
    requires HEARTBEAT !in p.outbound
    ensures GivenUp(use, p, false) == map[]
  {
  }

  // ----- runs that leak -----

  lemma {:induction false} OneMore(use: Use, w: World, es: seq<Event>, e: Event)
    ensures Run(w, es + [e]) == Step(Run(w, es), e)
    ensures EverLeaks(use, w, es + [e]) <==> EverLeaks(use, w, es) || StepLeaks(use, Run(w, es), e)
    decreases |es|
  {
    if es == [] {
      assert es + [e] == [e] && [e][1..] == [];
    } else {
      assert (es + [e])[1..] == es[1..] + [e];
      OneMore(use, Step(w, es[0]), es[1..], e);
    }
  }

  lemma RunOf(e: Event)
    ensures Run(NOTHING, [e]) == Step(NOTHING, e)
  {
    assert [e][1..] == [];
  }

  lemma OneRequest(t: string)
    ensures WithReads([], [t]) == [t]
  {
    assert [t][1..] == [] && [] + [t] == [t];
  }

  /** The pass of an object that asks for one topic. */
  lemma ReadsOne(w: World, i: nat, t: string, env: Env)
    requires i in w.peers && w.peers[i].reqRead == [t] && DataTopic(env, t) && w.peers[i].inUse == {}
    ensures t in Passed(w, i, env).peers[i].outbound && ToOpen(Read, w.peers[i], env) != {}
    ensures Passed(w, i, env).peers[i].connected == w.peers[i].connected
  {
    PassReconciles(w.peers[i], w.shared, env);
    PassRequests(w.peers[i], w.shared, env);
    assert t in DataTopics([t], env);
  }

  /** The last peer that is found goes. */
  lemma LastGoes(w: World, name: string, i: nat, env: Env)
    requires w.names == map[name := i] && i in w.peers
    ensures Step(w, Disconnect(name, env)).names == map[]
  {
  }

  lemma PassedNames(w: World, i: nat, env: Env)
    requires i in w.peers
    ensures Passed(w, i, env).names == w.names && Passed(w, i, env).peers.Keys == w.peers.Keys
  {
  }

  // A peer reads a topic, its connection fails, it connects again and goes.

  function Reader(t: string, env: Env): World {
    Passed(Connected(NOTHING, "a", [t], []), 0, env)
  }

  lemma ReaderReads(t: string, env: Env)
    requires DataTopic(env, t)
    ensures Run(NOTHING, [Connect("a", [t], []), PassOf(0, env)]) == Reader(t, env)
    ensures var w := Reader(t, env);
            w.names == map["a" := 0] && 0 in w.peers && w.peers[0].connected && t in w.peers[0].outbound
  {
    var w := Connected(NOTHING, "a", [t], []);
    RunOf(Connect("a", [t], []));
    OneMore(Read, NOTHING, [Connect("a", [t], [])], PassOf(0, env));
    OneRequest(t);
    ReadsOne(w, 0, t, env);
    PassedNames(w, 0, env);
  }

  /** Its failure, and the pass after it. */
  lemma FailureLeaks(w: World, t: string, env: Env)
    requires w.names == map["a" := 0] && 0 in w.peers && w.peers[0].connected && t in w.peers[0].outbound
    requires env.sioConnected
    ensures var w1 := Step(w, PeerFailed("a"));
            0 in w1.peers && w1.names == w.names && StepLeaks(Read, w1, PassOf(0, env))
  {
    var p := Step(w, PeerFailed("a")).peers[0];
    assert t in GivenUpReads(p, true);
  }

  lemma ReaderFails(t: string, env: Env)
    requires DataTopic(env, t) && env.sioConnected
    ensures var w := Run(NOTHING, [Connect("a", [t], []), PassOf(0, env), PeerFailed("a")]);
            0 in w.peers && w.names == map["a" := 0] && StepLeaks(Read, w, PassOf(0, env))
  {
    var es := [Connect("a", [t], []), PassOf(0, env)];
    ReaderReads(t, env);
    FailureLeaks(Reader(t, env), t, env);
    OneMore(Read, NOTHING, es, PeerFailed("a"));
    assert es + [PeerFailed("a")] == [Connect("a", [t], []), PassOf(0, env), PeerFailed("a")];
  }

  /** Nobody is connected, and the reader is still there. */
  lemma ReconnectLeaks(t: string, env: Env)
    requires DataTopic(env, t) && env.sioConnected
    ensures var es := [Connect("a", [t], []), PassOf(0, env), PeerFailed("a"), PassOf(0, env), Disconnect("a", env)];
            Run(NOTHING, es).names == map[] && Run(NOTHING, es).shared.readers != map[]
  {
    var es := [Connect("a", [t], []), PassOf(0, env), PeerFailed("a")];
    var e4, e5 := PassOf(0, env), Disconnect("a", env);
    ReaderFails(t, env);
    OneMore(Read, NOTHING, es, e4);
    OneMore(Read, NOTHING, es + [e4], e5);
    PassedNames(Run(NOTHING, es), 0, env);
    LastGoes(Run(NOTHING, es + [e4]), "a", 0, env);
    assert es + [e4] + [e5] == [Connect("a", [t], []), PassOf(0, env), PeerFailed("a"), e4, e5];
    NobodyLeft(es + [e4] + [e5]);
  }

  // A second peer connects under an id in use and reads a topic, and the first one goes.

  function TwoPeers(t: string): World {
    Connected(Connected(NOTHING, "a", [], []), "a", [t], [])
  }

  lemma SecondHidden(t: string)
    ensures Run(NOTHING, [Connect("a", [], []), Connect("a", [t], [])]) == TwoPeers(t)
    ensures var w := TwoPeers(t);
            w.names == map["a" := 0] && w.peers.Keys == {0, 1} && Hidden(w, 1)
            && w.peers[1].reqRead == [t] && w.peers[1].inUse == {}
  {
    RunOf(Connect("a", [], []));
    OneMore(Read, NOTHING, [Connect("a", [], [])], Connect("a", [t], []));
    OneRequest(t);
  }

  /** Nobody is connected, and the reader is still there. */
  lemma SecondPeerLeaks(t: string, env: Env)
    requires DataTopic(env, t)
    ensures var es := [Connect("a", [], []), Connect("a", [t], []), PassOf(1, env), Disconnect("a", env)];
            Run(NOTHING, es).names == map[] && Run(NOTHING, es).shared.readers != map[]
  {
    var e1, e2, e3, e4 := Connect("a", [], []), Connect("a", [t], []), PassOf(1, env), Disconnect("a", env);
    var w := Run(NOTHING, [e1, e2]);
    SecondHidden(t);
    ReadsOne(w, 1, t, env);
    PassedNames(w, 1, env);
    LastGoes(Step(w, e3), "a", 0, env);
    OneMore(Read, NOTHING, [e1, e2], e3);
    OneMore(Read, NOTHING, [e1, e2] + [e3], e4);
    assert [e1, e2, e3, e4] == [e1, e2] + [e3] + [e4];
    NobodyLeft([e1, e2, e3, e4]);
  }
}
