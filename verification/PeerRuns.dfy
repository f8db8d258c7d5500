/** What holds of the registries and the peers after every run (src/wrtc_peer.cpp, src/topic_reader_data.cpp,
    src/topic_writer_data.cpp). */
module PeerRuns {
  import opened Options
  import opened Channels
  import opened TopicReaders
  import opened TopicWriters
  import opened Reconcile
  import opened Requests
  import opened Agreement
  import opened Peers

  lemma StepKeeps(w: World, e: Event)
    requires Ok(w)
    ensures Ok(Step(w, e))
  {
    if e.Connect? {
      ConnectKeeps(w, e.name, e.reqRead, e.reqWrite);
    } else if e.PassOf? {
      if e.peer in w.peers { PassOfKeeps(w, e.peer, e.env); }
    } else if Finds(w, e.name) {
      if e.Disconnect? {
        DisconnectKeeps(w, e.name, e.env);
      } else {
        AskedKeeps(w, e);
      }
    }
  }

  /** The registries and the peers agree after every run. */
  lemma {:induction false} RunKeeps(w: World, es: seq<Event>)
    requires Ok(w)
    ensures Ok(Run(w, es))
    decreases |es|
  {
    if es != [] {
      StepKeeps(w, es[0]);
      RunKeeps(Step(w, es[0]), es[1..]);
    }
  }

  // ----- what that means -----

  /** Some object has `x` open for reading, for writing, or showing `t`. */
  ghost predicate Reads(w: World, t: string, x: Channel) {
    exists i :: i in w.peers && t in w.peers[i].outbound && w.peers[i].outbound[t] == x
  }

  ghost predicate Writes(w: World, t: string, x: Channel) {
    exists i :: i in w.peers && t in w.peers[i].inbound && w.peers[i].inbound[t] == x
  }

  ghost predicate Shows(w: World, t: string, x: Channel) {
    exists i :: i in w.peers && t in w.peers[i].inUse && t in w.peers[i].tracks && w.peers[i].tracks[t] == x
  }

  lemma OutputsOf(w: World, t: string, x: Channel)
    requires Ok(w)
    ensures (t, x) in Outputs(w.shared.readers) <==> Reads(w, t, x) || (t, x) in w.left.outputs
    ensures !(Reads(w, t, x) && (t, x) in w.left.outputs)
  {
    if (t, x) in Outputs(w.shared.readers) && (t, x) !in w.left.outputs {
      var i := w.shared.created[x.serial].peer;
      assert Agrees(w.peers[i], w.shared, w.left);
      assert Owns(w.shared.created, x, Owner(Read, i, t));
    }
  }

  lemma InputsOf(w: World, t: string, x: Channel)
    requires Ok(w)
    ensures (t, x) in Inputs(w.shared.writers) <==> (Writes(w, t, x) && t != HEARTBEAT) || (t, x) in w.left.inputs
    ensures !(Writes(w, t, x) && (t, x) in w.left.inputs)
  {
    if (t, x) in Inputs(w.shared.writers) && (t, x) !in w.left.inputs {
      var i := w.shared.created[x.serial].peer;
      assert Agrees(w.peers[i], w.shared, w.left);
      assert Owns(w.shared.created, x, Owner(Write, i, t));
    }
  }

  /** In every run, the outputs of readers are exactly the channels that are open for reading and those
      that were given up, never both; the inputs of writers likewise, but for open heartbeat channels. */
  lemma RegisteredExactly(es: seq<Event>, t: string, x: Channel)
    ensures var w := Run(NOTHING, es);
            (t, x) in Outputs(w.shared.readers) <==> Reads(w, t, x) || (t, x) in w.left.outputs
    ensures var w := Run(NOTHING, es);
            (t, x) in Inputs(w.shared.writers) <==> (Writes(w, t, x) && t != HEARTBEAT) || (t, x) in w.left.inputs
    ensures var w := Run(NOTHING, es);
            !(Reads(w, t, x) && (t, x) in w.left.outputs) && !(Writes(w, t, x) && (t, x) in w.left.inputs)
  {
    NothingIsOk();
    RunKeeps(NOTHING, es);
    OutputsOf(Run(NOTHING, es), t, x);
    InputsOf(Run(NOTHING, es), t, x);
  }

  /** What is given up once stays given up. */
  lemma {:induction false} LeftForever(w: World, es: seq<Event>)
    ensures w.left.outputs <= Run(w, es).left.outputs && w.left.inputs <= Run(w, es).left.inputs
    decreases |es|
  {
    if es != [] {
      LeftForever(Step(w, es[0]), es[1..]);
    }
  }

  /** In every run a reader exists exactly while it has an output: while an object reads its topic, or since
      one gave a channel up. So the last one to go destroys it, and a reader with a channel given up is never
      destroyed. */
  lemma ReaderWhileRead(es: seq<Event>, t: string)
    ensures var w := Run(NOTHING, es);
            t in w.shared.readers <==>
              (exists i :: i in w.peers && t in w.peers[i].outbound) || exists x :: (t, x) in w.left.outputs
  {
    var w := Run(NOTHING, es);
    NothingIsOk();
    RunKeeps(NOTHING, es);
    if t in w.shared.readers {
      var x := w.shared.readers[t].outputs[0];
      assert (t, x) in Outputs(w.shared.readers);
      OutputsOf(w, t, x);
    }
    if i :| i in w.peers && t in w.peers[i].outbound {
      OutputsOf(w, t, w.peers[i].outbound[t]);
    }
  }

  /** One peer's tracks in use, against the outputs of the media readers. */
  lemma ShownIsOutput(p: Peer, s: Shared, left: Left, t: string, x: Channel)
    requires SharedOk(s, left) && Agrees(p, s, left)
    ensures t in p.inUse && t in p.tracks && p.tracks[t] == x ==> (t, x) in Outputs(s.media)
    ensures (t, x) in Outputs(s.media) && Owns(s.created, x, Owner(Media, p.id, t)) ==>
              t in p.inUse && t in p.tracks && p.tracks[t] == x
  {
    if t in p.inUse && t in p.tracks && p.tracks[t] == x {
      assert t in Shown(p.tracks, p.inUse);
    }
  }

  lemma MediaOutputsOf(w: World, t: string, x: Channel)
    requires Ok(w)
    ensures (t, x) in Outputs(w.shared.media) <==> Shows(w, t, x)
  {
    if (t, x) in Outputs(w.shared.media) {
      var i := w.shared.created[x.serial].peer;
      ShownIsOutput(w.peers[i], w.shared, w.left, t, x);
    }
    if i :| i in w.peers && t in w.peers[i].inUse && t in w.peers[i].tracks && w.peers[i].tracks[t] == x {
      ShownIsOutput(w.peers[i], w.shared, w.left, t, x);
    }
  }

  /** In every run, reconnects included, the outputs of a media reader are exactly the tracks in use for its
      topic. */
  lemma MediaOutputsAreTheUnion(es: seq<Event>, t: string, x: Channel)
    ensures var w := Run(NOTHING, es);
            (t, x) in Outputs(w.shared.media) <==> Shows(w, t, x)
  {
    NothingIsOk();
    RunKeeps(NOTHING, es);
    MediaOutputsOf(Run(NOTHING, es), t, x);
  }

  /** In every run, reconnects included, the index finds a writer exactly for the channels among that
      writer's inputs, no channel is among the inputs of two writers, and every open write channel but a
      heartbeat one is found. */
  lemma WriterIndexIsExact(es: seq<Event>, t: string, u: string, x: Channel)
    ensures var ws := Run(NOTHING, es).shared.writers;
            x in ws.index && ws.index[x] == t <==> (t, x) in Inputs(ws)
    ensures var ws := Run(NOTHING, es).shared.writers;
            (t, x) in Inputs(ws) && (u, x) in Inputs(ws) ==> t == u
    ensures var w := Run(NOTHING, es);
            Writes(w, t, x) && t != HEARTBEAT ==> x in w.shared.writers.index && w.shared.writers.index[x] == t
  {
    NothingIsOk();
    RunKeeps(NOTHING, es);
    var w := Run(NOTHING, es);
    FoundIffFed(w.shared.writers, x, t, u);
    InputsOf(w, t, x);
  }
}
