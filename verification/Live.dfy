/** Readers that are fed and writers that publish (src/topic_reader_data.cpp, src/topic_reader_h264.cpp,
    src/topic_writer_data.cpp): in every run in which the subscribers and publishers can be created. */
module Live {
  import opened Options
  import opened Channels
  import opened TopicReaders
  import opened TopicWriters
  import opened Reconcile
  import opened Peers

  /** Every reader has its subscriber. */
  ghost predicate AllSubscribed(rs: map<string, Reader>) {
    forall t :: t in rs ==> rs[t].subscribed
  }

  /** Exactly the writers with inputs have a publisher. */
  ghost predicate InputsPublish(ws: Writers) {
    forall t :: t in ws.byTopic ==> (ws.byTopic[t].publishing <==> ws.byTopic[t].inputs != [])
  }

  // ----- one operation -----

  lemma OutputSubscribes(rs: map<string, Reader>, topic: string, dc: Channel)
    requires AllSubscribed(rs)
    ensures AllSubscribed(WithOutput(rs, topic, dc, true))
  {
  }

  lemma DropSubscribed(rs: map<string, Reader>, closed: map<string, Channel>)
    requires AllSubscribed(rs)
    ensures AllSubscribed(DropOutputs(rs, closed))
  {
  }

  lemma InputPublishes(ws: Writers, topic: string, dc: Channel)
    requires InputsPublish(ws)
    ensures InputsPublish(WithInput(ws, topic, dc, true))
  {
  }

  lemma DropPublishing(ws: Writers, closed: map<string, Channel>)
    requires InputsPublish(ws)
    ensures InputsPublish(DropInputs(ws, closed))
  {
  }

  // ----- one pass -----

  lemma {:induction false} ReadsSubscribe(p: Peer, s: Shared, ts: seq<string>, env: Env)
    requires AllSubscribed(s.media)
    ensures var s' := OpenReads(p, s, ts, env).1;
            && s'.writers == s.writers && AllSubscribed(s'.media)
            && (AllSubscribed(s.readers) && Topics(ts) <= env.creatable ==> AllSubscribed(s'.readers))
    decreases |ts|
  {
    if ts != [] {
      var init, t := ts[..|ts| - 1], ts[|ts| - 1];
      var (q, s1) := OpenReads(p, s, init, env);
      assert ts == init + [t] && Topics(ts) == Topics(init) + {t};
      ReadsSubscribe(p, s, init, env);
      RequestedSubscribes(q, s1, t, env);
    }
  }

  lemma RequestedSubscribes(p: Peer, s: Shared, t: string, env: Env)
    requires AllSubscribed(s.media)
    ensures var s' := OpenRequested(p, s, t, env).1;
            && s'.writers == s.writers && AllSubscribed(s'.media)
            && (AllSubscribed(s.readers) && t in env.creatable ==> AllSubscribed(s'.readers))
  {
    var p' := OpenRequested(p, s, t, env).0;
    if DataTopic(env, t) {
      if AllSubscribed(s.readers) {
        OutputSubscribes(s.readers, t, p'.outbound[t]);
      }
    } else if MediaTopic(env, t) {
      OutputSubscribes(s.media, t, p'.tracks[t]);
    }
  }

  lemma {:induction false} WritesPublish(p: Peer, s: Shared, reqs: seq<WriteRequest>, env: Env)
    ensures var s' := OpenWrites(p, s, reqs, env).1;
            && s'.readers == s.readers && s'.media == s.media
            && (InputsPublish(s.writers) && WriteTopics(reqs) <= env.creatable ==> InputsPublish(s'.writers))
    decreases |reqs|
  {
    if reqs != [] {
      var init, t := reqs[..|reqs| - 1], reqs[|reqs| - 1].topic;
      var (q, s1) := OpenWrites(p, s, init, env);
      WriteTopicsOfLast(reqs);
      WritesPublish(p, s, init, env);
      WritePublishes(q, s1, t, env);
    }
  }

  lemma WritePublishes(p: Peer, s: Shared, t: string, env: Env)
    ensures var s' := OpenWrite(p, s, t, env).1;
            && s'.readers == s.readers && s'.media == s.media
            && (InputsPublish(s.writers) && t in env.creatable ==> InputsPublish(s'.writers))
  {
    var p' := OpenWrite(p, s, t, env).0;
    if t != HEARTBEAT && InputsPublish(s.writers) {
      InputPublishes(s.writers, t, p'.inbound[t]);
    }
  }

  lemma CloseLive(p: Peer, s: Shared, close: bool)
    ensures var s' := CloseAll(p, s, close).1;
            && (AllSubscribed(s.readers) ==> AllSubscribed(s'.readers))
            && (AllSubscribed(s.media) ==> AllSubscribed(s'.media))
            && (InputsPublish(s.writers) ==> InputsPublish(s'.writers))
  {
    var (p1, s1) := CloseReads(p, s, ReadsToClose(p));
    var (p2, s2) := StopTracks(p1, s1, TracksToStop(p1), close);
    assert s2.writers == s.writers && s1.media == s.media;
    if InputsPublish(s.writers) {
      DropPublishing(s.writers, WritesToClose(p2) - {HEARTBEAT});
    }
  }

  /** The pass of a peer for whose requested topics everything can be created. */
  predicate Creatable(p: Peer, env: Env) {
    Topics(p.reqRead) <= env.creatable && WriteTopics(p.reqWrite) <= env.creatable
  }

  ghost predicate MediaLive(s: Shared) {
    AllSubscribed(s.media)
  }

  ghost predicate DataLive(s: Shared) {
    AllSubscribed(s.readers) && InputsPublish(s.writers)
  }

  lemma PassLive(p: Peer, s: Shared, env: Env)
    requires MediaLive(s)
    ensures MediaLive(Pass(p, s, env).1)
    ensures DataLive(s) && Creatable(p, env) ==> DataLive(Pass(p, s, env).1)
  {
    var reconnect := IsReconnect(p, env);
    var (p1, s1) := Restarted(p, s, reconnect);
    var (q, s2) := OpenReads(p1, s1, p1.reqRead, env);
    ReadsSubscribe(p1, s1, p1.reqRead, env);
    WritesPublish(q, s2, p1.reqWrite, env);
    var (p2, s3) := OpenAll(p1, s1, env);
    CloseLive(p2, s3, reconnect || !p.connected);
  }

  // ----- every run -----

  predicate CreatesAll(w: World, e: Event) {
    e.PassOf? && e.peer in w.peers ==> Creatable(w.peers[e.peer], e.env)
  }

  predicate AlwaysCreates(w: World, es: seq<Event>)
    decreases |es|
  {
    es == [] || (CreatesAll(w, es[0]) && AlwaysCreates(Step(w, es[0]), es[1..]))
  }

  lemma StepLive(w: World, e: Event)
    requires MediaLive(w.shared)
    ensures MediaLive(Step(w, e).shared)
    ensures DataLive(w.shared) && CreatesAll(w, e) ==> DataLive(Step(w, e).shared)
  {
    if e.PassOf? && e.peer in w.peers {
      PassLive(w.peers[e.peer], w.shared, e.env);
    } else if e.Disconnect? && Finds(w, e.name) {
      var p := Leaving(w.peers[w.names[e.name]]);
      assert Topics(p.reqRead) == {} && WriteTopics(p.reqWrite) == {};
      PassLive(p, w.shared, e.env);
    }
  }

  lemma {:induction false} RunLive(w: World, es: seq<Event>)
    requires MediaLive(w.shared)
    ensures MediaLive(Run(w, es).shared)
    ensures DataLive(w.shared) && AlwaysCreates(w, es) ==> DataLive(Run(w, es).shared)
    decreases |es|
  {
    if es != [] {
      StepLive(w, es[0]);
      RunLive(Step(w, es[0]), es[1..]);
    }
  }

  /** In every run every media reader has its subscriber. When the subscribers and publishers for the topics
      that were requested could be created in every pass, every reader has its subscriber, and a writer has
      its publisher exactly while it has inputs. */
  lemma FedAndPublishing(es: seq<Event>, t: string)
    ensures var s := Run(NOTHING, es).shared;
            t in s.media ==> s.media[t].subscribed
    ensures var s := Run(NOTHING, es).shared;
            AlwaysCreates(NOTHING, es) ==>
              && (t in s.readers ==> s.readers[t].subscribed)
              && (t in s.writers.byTopic ==> (s.writers.byTopic[t].publishing <==> s.writers.byTopic[t].inputs != []))
  {
    RunLive(NOTHING, es);
  }
}
