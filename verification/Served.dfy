/** What a peer gets for what it asks for: which kind of channel for which type of topic, and what becomes of
    its requests in a run (src/wrtc_peer.cpp, isImageOrVideoType of src/lib.cpp). */
module Served {
  import opened Options
  import opened Channels
  import opened TopicReaders
  import opened TopicWriters
  import opened Reconcile
  import opened Requests
  import opened Agreement
  import opened Peers
  import opened PeerRuns
  import opened LeakFree
  import opened Reconnects

  // ----- one pass -----

  /** After any pass, whatever the types of the discovered topics: a topic is shown on a track exactly when it
      is requested and has one of the three types of images and videos (or was shown before), and has a read
      channel exactly when it is requested and has another type (or had one before and the pass is no
      reconnect). A topic without a type opens nothing. */
  lemma ChannelForType(p: Peer, s: Shared, types: map<string, string>, sioConnected: bool, pcLost: bool,
                       creatable: set<string>, t: string)
    requires p.inUse <= p.tracks.Keys
    ensures var p' := Pass(p, s, Env(sioConnected, pcLost, Kinds(types), creatable)).0;
            t in p'.inUse <==>
            t in p.reqRead
            && (t in p.inUse
                || (t in types && (types[t] == "sensor_msgs/msg/Image" || types[t] == "sensor_msgs/msg/CompressedImage"
                                   || types[t] == "ffmpeg_image_transport_msgs/msg/FFMPEGPacket")))
    ensures var p' := Pass(p, s, Env(sioConnected, pcLost, Kinds(types), creatable)).0;
            t in p'.outbound <==>
            t in p.reqRead
            && ((t in p.outbound
                 && !(p.connected && sioConnected && (p.needsRestart || p.pc == None || pcLost)))
                || (t in types && types[t] != "" && types[t] != "sensor_msgs/msg/Image"
                    && types[t] != "sensor_msgs/msg/CompressedImage"
                    && types[t] != "ffmpeg_image_transport_msgs/msg/FFMPEGPacket"))
    ensures var p' := Pass(p, s, Env(sioConnected, pcLost, Kinds(types), creatable)).0;
            t in p'.inbound <==> exists k :: 0 <= k < |p.reqWrite| && p.reqWrite[k].topic == t
  {
    PassReconciles(p, s, Env(sioConnected, pcLost, Kinds(types), creatable));
  }

  /** What a pass does with the connection, whatever it observes: a connected peer gets a new one exactly when
      Socket.IO is connected and the peer asked for a restart, has none, or lost it; and it is made an offer
      exactly when the pass found negotiation needed. */
  lemma ReconnectsWhen(p: Peer, s: Shared, env: Env)
    requires p.connected && IsOlder(p.pc, s.created)
    ensures Pass(p, s, env).0.pc != p.pc <==> env.sioConnected && (p.needsRestart || p.pc == None || env.pcLost)
    ensures Pass(p, s, env).0.awaiting <==> Pass(p, s, env).0.negotiation
  {
    PassRequests(p, s, env);
    PassFinishes(p, s, env);
  }

  lemma RestartKept(p: Peer, s: Shared, env: Env)
    ensures Pass(p, s, env).0.needsRestart <==> p.needsRestart && !IsReconnect(p, env)
  {
    var (p1, s1) := Restarted(p, s, IsReconnect(p, env));
    AllOpened(p1, s1, env);
    AllClosed(OpenAll(p1, s1, env).0, OpenAll(p1, s1, env).1, IsReconnect(p, env) || !p.connected);
  }

  /** One restart is enough: once a pass was made while Socket.IO was connected, the next one is a reconnect
      only if the connection is lost again. */
  lemma RestartsOnce(p: Peer, s: Shared, env: Env, env': Env)
    requires p.connected && env.sioConnected
    ensures IsReconnect(Pass(p, s, env).0, env') <==> env'.sioConnected && env'.pcLost
  {
    PassRequests(p, s, env);
    RestartKept(p, s, env);
  }

  // ----- requests in a run -----

  ghost predicate AsksOnce(p: Peer) {
    ReadsOnce(p.reqRead) && WritesOnce(p.reqWrite)
  }

  ghost predicate AskOnce(w: World) {
    forall i :: i in w.peers ==> AsksOnce(w.peers[i])
  }

  lemma {:induction false} WithReadsOnce(topics: seq<string>, more: seq<string>)
    requires ReadsOnce(topics)
    ensures ReadsOnce(WithReads(topics, more))
    decreases |more|
  {
    if more != [] {
      AddReadAdds(topics, more[0]);
      WithReadsOnce(WithRead(topics, more[0]), more[1..]);
    }
  }

  lemma {:induction false} WithWritesOnce(reqs: seq<WriteRequest>, more: seq<WriteRequest>)
    requires WritesOnce(reqs)
    ensures WritesOnce(WithWrites(reqs, more))
    decreases |more|
  {
    if more != [] {
      AddWriteAdds(reqs, more[0].topic, more[0].msgType);
      WithWritesOnce(WithWrite(reqs, more[0].topic, more[0].msgType), more[1..]);
    }
  }

  lemma AskedOnce(p: Peer, e: Event)
    requires AsksOnce(p)
    ensures AsksOnce(Peers.Asked(p, e))
  {
    match e
    case AddRead(_, t) => AddReadAdds(p.reqRead, t);
    case RemoveRead(_, t) => RemoveReadRemoves(p.reqRead, t);
    case AddWrite(_, t, msgType) => AddWriteAdds(p.reqWrite, t, msgType);
    case RemoveWrite(_, t) => RemoveWriteRemoves(p.reqWrite, t);
    case _ =>
  }

  lemma NewPeerAsksOnce(id: nat, pc: nat, reqRead: seq<string>, reqWrite: seq<WriteRequest>)
    ensures AsksOnce(NewPeer(id, pc, reqRead, reqWrite))
  {
    WithReadsOnce([], reqRead);
    WithWritesOnce([], reqWrite);
  }

  lemma PassAsksOnce(p: Peer, s: Shared, env: Env)
    requires AsksOnce(p)
    ensures AsksOnce(Pass(p, s, env).0)
  {
    PassRequests(p, s, env);
  }

  lemma StepAsksOnce(w: World, e: Event)
    requires AskOnce(w)
    ensures AskOnce(Step(w, e))
  {
    if e.Connect? {
      NewPeerAsksOnce(w.nextPeer, |w.shared.created|, e.reqRead, e.reqWrite);
    } else if e.PassOf? {
      if e.peer in w.peers {
        PassAsksOnce(w.peers[e.peer], w.shared, e.env);
      }
    } else if IsRequest(e) && Finds(w, e.name) {
      AskedOnce(w.peers[w.names[e.name]], e);
    }
  }

  lemma {:induction false} RunAsksOnce(w: World, es: seq<Event>)
    requires AskOnce(w)
    ensures AskOnce(Run(w, es))
    decreases |es|
  {
    if es != [] {
      StepAsksOnce(w, es[0]);
      RunAsksOnce(Step(w, es[0]), es[1..]);
    }
  }

  /** What is known of a peer in a run. */
  ghost predicate Asks(p: Peer, s: Shared) {
    p.inUse <= p.tracks.Keys && p.connected && IsOlder(p.pc, s.created) && AsksOnce(p)
  }

  lemma RunAsks(es: seq<Event>, name: string)
    requires Finds(Run(NOTHING, es), name)
    ensures var w := Run(NOTHING, es); Asks(w.peers[w.names[name]], w.shared)
  {
    var w := Run(NOTHING, es);
    NothingIsOk();
    RunKeeps(NOTHING, es);
    RunAsksOnce(NOTHING, es);
    TracksOlder(w, w.names[name]);
  }

  /** A request in a run, and a pass of the peer after it. */
  lemma AskThenPass(es: seq<Event>, name: string, e: Event, env: Env) returns (w: World, p: Peer)
    requires Finds(Run(NOTHING, es), name) && IsRequest(e) && e.name == name
    ensures w == Run(NOTHING, es) && Asks(w.peers[w.names[name]], w.shared)
    ensures p == Peers.Asked(w.peers[w.names[name]], e)
    ensures var w' := Run(NOTHING, es + [e, PassOf(w.names[name], env)]);
            w.names[name] in w'.peers && w'.peers[w.names[name]] == Pass(p, w.shared, env).0
  {
    w := Run(NOTHING, es);
    var i := w.names[name];
    p := Peers.Asked(w.peers[i], e);
    RunAsks(es, name);
    assert es + [e, PassOf(i, env)] == es + [e] + [PassOf(i, env)];
    OneMore(Read, NOTHING, es, e);
    OneMore(Read, NOTHING, es + [e], PassOf(i, env));
  }

  lemma RunOk(es: seq<Event>)
    ensures Ok(Run(NOTHING, es))
  {
    NothingIsOk();
    RunKeeps(NOTHING, es);
  }

  /** What a peer has open in a run is registered. */
  lemma RegisteredRead(es: seq<Event>, i: nat, t: string)
    requires i in Run(NOTHING, es).peers
    ensures var w := Run(NOTHING, es);
            && (t in w.peers[i].outbound ==> (t, w.peers[i].outbound[t]) in Outputs(w.shared.readers))
            && (t in w.peers[i].inUse ==>
                  t in w.peers[i].tracks && (t, w.peers[i].tracks[t]) in Outputs(w.shared.media))
  {
    var w := Run(NOTHING, es);
    RunOk(es);
    TracksOlder(w, i);
    if t in w.peers[i].outbound {
      OutputsOf(w, t, w.peers[i].outbound[t]);
    }
    if t in w.peers[i].inUse {
      MediaOutputsOf(w, t, w.peers[i].tracks[t]);
    }
  }

  lemma RegisteredWrite(es: seq<Event>, i: nat, t: string)
    requires i in Run(NOTHING, es).peers && t in Run(NOTHING, es).peers[i].inbound && t != "_heartbeat"
    ensures var w := Run(NOTHING, es); (t, w.peers[i].inbound[t]) in Inputs(w.shared.writers)
  {
    var w := Run(NOTHING, es);
    RunOk(es);
    InputsOf(w, t, w.peers[i].inbound[t]);
  }

  /** In every run, once a peer asked to read a topic, a pass that finds the topic discovered gives it what it
      asked for: a track that the media reader of the topic feeds when the type is one of images and videos,
      a channel that its reader feeds for any other type. */
  lemma ReadIsServed(es: seq<Event>, name: string, t: string, types: map<string, string>, sioConnected: bool,
                     pcLost: bool, creatable: set<string>)
    requires Finds(Run(NOTHING, es), name) && t in types && types[t] != ""
    ensures var i := Run(NOTHING, es).names[name];
            var env := Env(sioConnected, pcLost, Kinds(types), creatable);
            var w := Run(NOTHING, es + [AddRead(name, t), PassOf(i, env)]);
            i in w.peers &&
            if types[t] == "sensor_msgs/msg/Image" || types[t] == "sensor_msgs/msg/CompressedImage"
               || types[t] == "ffmpeg_image_transport_msgs/msg/FFMPEGPacket"
            then t in w.peers[i].inUse && t in w.peers[i].tracks && (t, w.peers[i].tracks[t]) in Outputs(w.shared.media)
            else t in w.peers[i].outbound && (t, w.peers[i].outbound[t]) in Outputs(w.shared.readers)
  {
    var env := Env(sioConnected, pcLost, Kinds(types), creatable);
    var w0, p := AskThenPass(es, name, AddRead(name, t), env);
    var i := w0.names[name];
    AddReadAdds(w0.peers[i].reqRead, t);
    assert t in Topics(p.reqRead);
    ChannelForType(p, w0.shared, types, sioConnected, pcLost, creatable, t);
    RegisteredRead(es + [AddRead(name, t), PassOf(i, env)], i, t);
  }

  /** Once it asked to read it no longer, a pass closes channel and track. */
  lemma ReadIsDropped(es: seq<Event>, name: string, t: string, env: Env)
    requires Finds(Run(NOTHING, es), name)
    ensures var i := Run(NOTHING, es).names[name];
            var w := Run(NOTHING, es + [RemoveRead(name, t), PassOf(i, env)]);
            i in w.peers && t !in w.peers[i].outbound && t !in w.peers[i].inUse
  {
    var w0, p := AskThenPass(es, name, RemoveRead(name, t), env);
    RemoveReadRemoves(w0.peers[w0.names[name]].reqRead, t);
    assert t !in Topics(p.reqRead);
    PassReconciles(p, w0.shared, env);
  }

  /** The same for writing: the channel feeds the writer of the topic, but for the heartbeat. */
  lemma WriteIsServed(es: seq<Event>, name: string, t: string, msgType: string, env: Env)
    requires Finds(Run(NOTHING, es), name)
    ensures var i := Run(NOTHING, es).names[name];
            var w := Run(NOTHING, es + [AddWrite(name, t, msgType), PassOf(i, env)]);
            && i in w.peers && t in w.peers[i].inbound
            && (t != "_heartbeat" ==> (t, w.peers[i].inbound[t]) in Inputs(w.shared.writers))
            && WriteRequest(t, msgType) in w.peers[i].reqWrite
  {
    var w0, p := AskThenPass(es, name, AddWrite(name, t, msgType), env);
    var i := w0.names[name];
    AddWriteAdds(w0.peers[i].reqWrite, t, msgType);
    var k :| 0 <= k < |p.reqWrite| && p.reqWrite[k] == WriteRequest(t, msgType);
    assert t in WriteTopics(p.reqWrite);
    PassReconciles(p, w0.shared, env);
    PassRequests(p, w0.shared, env);
    if t != "_heartbeat" {
      RegisteredWrite(es + [AddWrite(name, t, msgType), PassOf(i, env)], i, t);
    }
  }

  lemma WriteIsDropped(es: seq<Event>, name: string, t: string, env: Env)
    requires Finds(Run(NOTHING, es), name)
    ensures var i := Run(NOTHING, es).names[name];
            var w := Run(NOTHING, es + [RemoveWrite(name, t), PassOf(i, env)]);
            i in w.peers && t !in w.peers[i].inbound
  {
    var w0, p := AskThenPass(es, name, RemoveWrite(name, t), env);
    RemoveWriteRemoves(w0.peers[w0.names[name]].reqWrite, t);
    PassReconciles(p, w0.shared, env);
  }

  /** Once a peer told that its connection failed, the next pass with Socket.IO connected makes a new one. */
  lemma FailureIsServed(es: seq<Event>, name: string, env: Env)
    requires Finds(Run(NOTHING, es), name) && env.sioConnected
    ensures var w := Run(NOTHING, es);
            var i := w.names[name];
            var w' := Run(NOTHING, es + [PeerFailed(name), PassOf(i, env)]);
            i in w'.peers && w'.peers[i].pc.Some? && w'.peers[i].pc != w.peers[i].pc
  {
    var w, p := AskThenPass(es, name, PeerFailed(name), env);
    ReconnectsWhen(p, w.shared, env);
    PassRequests(p, w.shared, env);
  }

  // ----- coming and going -----

  lemma {:induction false} WithReadsAdds(topics: seq<string>, more: seq<string>)
    requires ReadsOnce(topics)
    ensures Topics(WithReads(topics, more)) == Topics(topics) + Topics(more)
    decreases |more|
  {
    if more != [] {
      AddReadAdds(topics, more[0]);
      WithReadsAdds(WithRead(topics, more[0]), more[1..]);
      TopicsOfFirst(more);
    }
  }

  lemma {:induction false} WithWritesAdds(reqs: seq<WriteRequest>, more: seq<WriteRequest>)
    requires WritesOnce(reqs)
    ensures WriteTopics(WithWrites(reqs, more)) == WriteTopics(reqs) + WriteTopics(more)
    decreases |more|
  {
    if more != [] {
      AddWriteAdds(reqs, more[0].topic, more[0].msgType);
      var reqs' := WithWrite(reqs, more[0].topic, more[0].msgType);
      WithWritesAdds(reqs', more[1..]);
      WriteTopicsOfFirst(more);
      WriteTopicsAdded(reqs, reqs', more[0]);
    } else {
      assert WriteTopics(more) == {};
    }
  }

  lemma WriteTopicsOfFirst(reqs: seq<WriteRequest>)
    requires reqs != []
    ensures WriteTopics(reqs) == {reqs[0].topic} + WriteTopics(reqs[1..])
  {
    forall t | t in WriteTopics(reqs)
      ensures t in {reqs[0].topic} + WriteTopics(reqs[1..])
    {
      var k :| 0 <= k < |reqs| && reqs[k].topic == t;
      if k > 0 {
        assert reqs[1..][k - 1].topic == t;
      }
    }
    forall t | t in WriteTopics(reqs[1..])
      ensures t in WriteTopics(reqs)
    {
      var k :| 0 <= k < |reqs[1..]| && reqs[1..][k].topic == t;
      assert reqs[k + 1].topic == t;
    }
  }

  lemma WriteTopicsAdded(reqs: seq<WriteRequest>, reqs': seq<WriteRequest>, r: WriteRequest)
    requires forall x :: x in reqs' <==> x == r || (x in reqs && x.topic != r.topic)
    ensures WriteTopics(reqs') == WriteTopics(reqs) + {r.topic}
  {
    forall t | t in WriteTopics(reqs')
      ensures t in WriteTopics(reqs) + {r.topic}
    {
      var k :| 0 <= k < |reqs'| && reqs'[k].topic == t;
      assert reqs'[k] in reqs';
      if t != r.topic {
        var j :| 0 <= j < |reqs| && reqs[j] == reqs'[k];
      }
    }
    forall t | t in WriteTopics(reqs) + {r.topic}
      ensures t in WriteTopics(reqs')
    {
      if t == r.topic {
        assert r in reqs';
        var j :| 0 <= j < |reqs'| && reqs'[j] == r;
      } else {
        var k :| 0 <= k < |reqs| && reqs[k].topic == t;
        assert reqs[k] in reqs';
        var j :| 0 <= j < |reqs'| && reqs'[j] == reqs[k];
      }
    }
  }

  /** A peer that connects under an id not in use is found under it, connected, with a peer connection of its own
      and nothing open, and asks for exactly the topics it came with. */
  lemma ConnectIsServed(es: seq<Event>, name: string, reqRead: seq<string>, reqWrite: seq<WriteRequest>)
    requires name !in Run(NOTHING, es).names
    ensures var w := Run(NOTHING, es + [Connect(name, reqRead, reqWrite)]);
            && Finds(w, name)
            && var p := w.peers[w.names[name]];
               && p.connected && p.pc == Some(|Run(NOTHING, es).shared.created|)
               && p.outbound == map[] && p.inbound == map[] && p.inUse == {}
               && Topics(p.reqRead) == Topics(reqRead) && WriteTopics(p.reqWrite) == WriteTopics(reqWrite)
  {
    OneMore(Read, NOTHING, es, Connect(name, reqRead, reqWrite));
    WithReadsAdds([], reqRead);
    WithWritesAdds([], reqWrite);
    assert Topics([]) == {} && WriteTopics([]) == {};
  }

  /** A peer that disconnects is no longer found, and its object is gone. */
  lemma DisconnectIsFinal(es: seq<Event>, name: string, env: Env)
    requires Finds(Run(NOTHING, es), name)
    ensures var w := Run(NOTHING, es + [Disconnect(name, env)]);
            name !in w.names && Run(NOTHING, es).names[name] !in w.peers
  {
    OneMore(Read, NOTHING, es, Disconnect(name, env));
  }
}
