/** What a reconnect keeps although its peer connection is gone: the tracks (src/wrtc_peer.cpp). */
module Reconnects {
  import opened Options
  import opened Channels
  import opened TopicReaders
  import opened TopicWriters
  import opened Reconcile
  import opened Agreement
  import opened Peers
  import opened PeerRuns
  import opened LeakFree

  /** New tracks belong to the peer connection of the moment. */
  ghost predicate TracksHere(p: Peer, p': Peer) {
    p'.pc == p.pc && forall t :: t in p'.tracks && t !in p.tracks ==> p'.tracks[t].pc == p.pc
  }

  lemma {:induction false} OpenReadsHere(p: Peer, s: Shared, ts: seq<string>, env: Env)
    ensures TracksHere(p, OpenReads(p, s, ts, env).0)
    decreases |ts|
  {
    if ts != [] {
      var (q, s1) := OpenReads(p, s, ts[..|ts| - 1], env);
      OpenReadsHere(p, s, ts[..|ts| - 1], env);
      if ts[|ts| - 1] in q.tracks {
        return;
      }
    }
  }

  /** Every track belongs to the peer connection there is. */
  ghost predicate AllHere(p: Peer) {
    forall t :: t in p.tracks ==> p.tracks[t].pc == p.pc
  }

  /** Every track is in use and no longer requested. */
  ghost predicate AllEnd(p: Peer) {
    forall t :: t in p.tracks ==> t in p.inUse && t !in p.reqRead
  }

  lemma PassKeepsOldTracks(p: Peer, s: Shared, env: Env)
    requires IsReconnect(p, env) && p.inUse <= p.tracks.Keys
    requires forall t :: t in p.tracks ==> IsOlder(p.tracks[t].pc, s.created)
    ensures var p' := Pass(p, s, env).0;
            AllHere(p') <==> AllEnd(p)
  {
    var (p1, s1) := Restarted(p, s, true);
    var (p2, s2) := OpenAll(p1, s1, env);
    OpenReadsHere(p1, s1, p1.reqRead, env);
    AllOpened(p1, s1, env);
    var (q, s3) := OpenReads(p1, s1, p1.reqRead, env);
    WritesOpened(q, s3, p1.reqWrite, env);
    AllClosed(p2, s2, true);
    var p' := Pass(p, s, env).0;
    assert MediaTopics(p.reqRead, env) <= Topics(p.reqRead);
    TracksAfter(p, p', p2.tracks, MediaTopics(p.reqRead, env));
  }

  lemma TracksAfter(p: Peer, p': Peer, tracks: map<string, Channel>, media: set<string>)
    requires p.inUse <= p.tracks.Keys && media <= Topics(p.reqRead) && p'.pc.Some?
    requires Grows(p.tracks, tracks, media)
    requires p'.tracks == tracks - ((tracks.Keys * (p.inUse + media)) - Topics(p.reqRead))
    requires forall t :: t in tracks && t !in p.tracks ==> tracks[t].pc == p'.pc
    requires forall t :: t in p.tracks ==> p.tracks[t].pc != p'.pc
    ensures AllHere(p') <==> AllEnd(p)
  {
    forall t | t in p.tracks
      ensures t in p'.tracks <==> !(t in p.inUse && t !in p.reqRead)
    {
    }
  }

  /** In every run, a reconnect closes the tracks in use that are no longer requested and keeps all others,
      although their peer connection is gone. So afterwards every track belongs to the new peer connection if
      and only if every track before was in use and is no longer requested. */
  lemma ReconnectKeepsOldTracks(es: seq<Event>, i: nat, env: Env)
    requires i in Run(NOTHING, es).peers && IsReconnect(Run(NOTHING, es).peers[i], env)
    ensures var w := Run(NOTHING, es);
            AllHere(Passed(w, i, env).peers[i]) <==> AllEnd(w.peers[i])
  {
    NothingIsOk();
    RunKeeps(NOTHING, es);
    PassedKeepsOldTracks(Run(NOTHING, es), i, env);
  }

  lemma PassedKeepsOldTracks(w: World, i: nat, env: Env)
    requires PeersOk(w) && i in w.peers && IsReconnect(w.peers[i], env)
    ensures AllHere(Passed(w, i, env).peers[i]) <==> AllEnd(w.peers[i])
  {
    TracksOlder(w, i);
    PassKeepsOldTracks(w.peers[i], w.shared, env);
  }

  lemma TracksOlder(w: World, i: nat)
    requires PeersOk(w) && i in w.peers
    ensures w.peers[i].inUse <= w.peers[i].tracks.Keys
    ensures forall t :: t in w.peers[i].tracks ==> IsOlder(w.peers[i].tracks[t].pc, w.shared.created)
  {
    assert Agrees(w.peers[i], w.shared, w.left);
  }

  // ----- a run in which a track outlives its connection -----

  lemma Failed(w: World, t: string, env: Env)
    requires w.names == map["a" := 0] && 0 in w.peers && w.peers[0].reqRead == [t] && w.peers[0].connected
    requires t in w.peers[0].tracks && IsOlder(w.peers[0].tracks[t].pc, w.shared.created)
    requires w.peers[0].inUse <= w.peers[0].tracks.Keys && MediaTopic(env, t) && env.sioConnected
    ensures var w' := Passed(Step(w, PeerFailed("a")), 0, env);
            && 0 in w'.peers && w'.peers[0].connected && t in w'.peers[0].inUse && t in w'.peers[0].tracks
            && w'.peers[0].tracks[t].pc != w'.peers[0].pc
  {
    var w1 := Step(w, PeerFailed("a"));
    PassReconciles(w1.peers[0], w1.shared, env);
    NothingReplaced(w1.peers[0], w1.shared, env);
    PassRequests(w1.peers[0], w1.shared, env);
    assert t in MediaTopics([t], env);
  }

  lemma Shown(w: World, t: string, env: Env)
    requires 0 in w.peers && w.peers[0].reqRead == [t] && w.peers[0].inUse == {} && MediaTopic(env, t)
    ensures var p := Passed(w, 0, env).peers[0];
            t in p.tracks && p.reqRead == [t] && p.connected == w.peers[0].connected
  {
    PassReconciles(w.peers[0], w.shared, env);
    PassRequests(w.peers[0], w.shared, env);
    assert t in MediaTopics([t], env);
  }

  lemma WatcherRuns(t: string, env: Env)
    ensures var w1 := Connected(NOTHING, "a", [t], []);
            && Run(NOTHING, [Connect("a", [t], []), PassOf(0, env)]) == Passed(w1, 0, env)
            && Run(NOTHING, [Connect("a", [t], []), PassOf(0, env), PeerFailed("a"), PassOf(0, env)])
               == Step(Step(Passed(w1, 0, env), PeerFailed("a")), PassOf(0, env))
  {
    var e1, e2, e3 := Connect("a", [t], []), PassOf(0, env), PeerFailed("a");
    RunOf(e1);
    OneMore(Media, NOTHING, [e1], e2);
    OneMore(Media, NOTHING, [e1, e2], e3);
    OneMore(Media, NOTHING, [e1, e2, e3], e2);
    assert [e1] + [e2] == [e1, e2] && [e1, e2] + [e3] == [e1, e2, e3] && [e1, e2, e3] + [e2] == [e1, e2, e3, e2];
  }

  /** A peer watches a topic. */
  lemma Watches(t: string, env: Env)
    requires MediaTopic(env, t)
    ensures var w := Passed(Connected(NOTHING, "a", [t], []), 0, env);
            && w.names == map["a" := 0] && 0 in w.peers && w.peers[0].reqRead == [t] && w.peers[0].connected
            && t in w.peers[0].tracks && IsOlder(w.peers[0].tracks[t].pc, w.shared.created)
            && w.peers[0].inUse <= w.peers[0].tracks.Keys
  {
    var w1 := Connected(NOTHING, "a", [t], []);
    OneRequest(t);
    Shown(w1, t, env);
    PassedNames(w1, 0, env);
    WatcherRuns(t, env);
    NothingIsOk();
    RunKeeps(NOTHING, [Connect("a", [t], []), PassOf(0, env)]);
    TracksOlder(Passed(w1, 0, env), 0);
  }

  /** Its connection fails and it reconnects: the track is in use, and it belongs to the connection that is
      gone. */
  lemma TrackOutlives(t: string, env: Env)
    requires MediaTopic(env, t) && env.sioConnected
    ensures var w := Run(NOTHING, [Connect("a", [t], []), PassOf(0, env), PeerFailed("a"), PassOf(0, env)]);
            && 0 in w.peers && w.peers[0].connected && t in w.peers[0].inUse && t in w.peers[0].tracks
            && w.peers[0].tracks[t].pc != w.peers[0].pc
  {
    Watches(t, env);
    WatcherRuns(t, env);
    Failed(Passed(Connected(NOTHING, "a", [t], []), 0, env), t, env);
  }
}
