/** What one pass of `processSubscriptionsSync` does to a peer and to the registries all peers share
    (src/wrtc_peer.cpp). */
module Reconcile {
  import opened Options
  import opened Channels
  import opened TopicReaders
  import opened TopicWriters

  const HEARTBEAT := "_heartbeat"
  const IMAGE := "sensor_msgs/msg/Image"
  const COMPRESSED_IMAGE := "sensor_msgs/msg/CompressedImage"
  const VIDEO_STREAM := "ffmpeg_image_transport_msgs/msg/FFMPEGPacket"

  predicate IsImageOrVideo(msgType: string) {
    msgType == IMAGE || msgType == COMPRESSED_IMAGE || msgType == VIDEO_STREAM
  }

  datatype Kind = DataKind | VideoKind

  /** The discovered topics with their types, by how they are read; an empty type means not yet discovered. */
  function Kinds(types: map<string, string>): map<string, Kind> {
    map t | t in types && types[t] != "" :: if IsImageOrVideo(types[t]) then VideoKind else DataKind
  }

  datatype WriteRequest = WriteRequest(topic: string, msgType: string)

  /** `inUse` holds the topics whose track is in use. */
  datatype Peer = Peer(
    id: nat, connected: bool, pc: Option<nat>, needsRestart: bool,
    outbound: map<string, Channel>, inbound: map<string, Channel>, tracks: map<string, Channel>, inUse: set<string>,
    reqRead: seq<string>, reqWrite: seq<WriteRequest>,
    negotiation: bool, awaiting: bool, nextId: nat)

  /** What an object handed out by libdatachannel was created for; a connection has no topic. */
  datatype Use = Connection | Read | Write | Media

  datatype Owner = Owner(use: Use, peer: nat, topic: string)

  /** The registries of readers, of media readers and of writers; `created[k]` is the owner of the
      object with serial number k. */
  datatype Shared = Shared(
    created: seq<Owner>, readers: map<string, Reader>, media: map<string, Reader>, writers: Writers)

  /** What a pass observes: the Socket.IO connection, whether the peer connection failed or its ICE
      state is closed, the kinds of the discovered topics, and the topics for which a subscriber or
      publisher can be created. */
  datatype Env = Env(sioConnected: bool, pcLost: bool, kinds: map<string, Kind>, creatable: set<string>)

  predicate IsReconnect(p: Peer, env: Env) {
    p.connected && env.sioConnected && (p.needsRestart || p.pc.None? || env.pcLost)
  }

  predicate DataTopic(env: Env, t: string) {
    t in env.kinds && env.kinds[t].DataKind?
  }

  predicate MediaTopic(env: Env, t: string) {
    t in env.kinds && env.kinds[t].VideoKind?
  }

  // ----- opening -----

  /** `openDataChannelForTopic`: the id counter is a 16-bit integer. */
  function NewChannel(p: Peer, s: Shared): Channel {
    Channel(|s.created|, p.pc, (p.nextId + 1) % 0x1_0000)
  }

  /** The peer with a channel for `t`: the one it has, or else `dc`. */
  function Reading(p: Peer, t: string, dc: Channel): Peer {
    if t in p.outbound then p else p.(outbound := p.outbound[t := dc], nextId := dc.id, negotiation := true)
  }

  function Writing(p: Peer, t: string, dc: Channel): Peer {
    if t in p.inbound then p else p.(inbound := p.inbound[t := dc], nextId := dc.id, negotiation := true)
  }

  /** A paused track is used again. */
  function Showing(p: Peer, t: string, c: Channel): Peer {
    if t in p.tracks then p.(inUse := p.inUse + {t})
    else p.(tracks := p.tracks[t := c], inUse := p.inUse + {t}, negotiation := true)
  }

  function Created(s: Shared, o: Owner): Shared {
    s.(created := s.created + [o])
  }

  function OpenRead(p: Peer, s: Shared, t: string, env: Env): (Peer, Shared) {
    var p' := Reading(p, t, NewChannel(p, s));
    var s' := if t in p.outbound then s else Created(s, Owner(Read, p.id, t));
    (p', s'.(readers := WithOutput(s.readers, t, p'.outbound[t], t in env.creatable)))
  }

  /** A media reader always starts its subscriber. */
  function OpenTrack(p: Peer, s: Shared, t: string): (Peer, Shared) {
    var p' := Showing(p, t, Channel(|s.created|, p.pc, 0));
    var s' := if t in p.tracks then s else Created(s, Owner(Media, p.id, t));
    (p', s'.(media := WithOutput(s.media, t, p'.tracks[t], true)))
  }

  function OpenWrite(p: Peer, s: Shared, t: string, env: Env): (Peer, Shared) {
    var p' := Writing(p, t, NewChannel(p, s));
    var s' := if t in p.inbound then s else Created(s, Owner(Write, p.id, t));
    (p', if t == HEARTBEAT then s' else s'.(writers := WithInput(s.writers, t, p'.inbound[t], t in env.creatable)))
  }

  function OpenRequested(p: Peer, s: Shared, t: string, env: Env): (Peer, Shared) {
    if DataTopic(env, t) then OpenRead(p, s, t, env)
    else if MediaTopic(env, t) then OpenTrack(p, s, t)
    else (p, s)
  }

  function OpenReads(p: Peer, s: Shared, ts: seq<string>, env: Env): (Peer, Shared)
    decreases |ts|
  {
    if ts == [] then (p, s)
    else
      var (p', s') := OpenReads(p, s, ts[..|ts| - 1], env);
      OpenRequested(p', s', ts[|ts| - 1], env)
  }

  function OpenWrites(p: Peer, s: Shared, reqs: seq<WriteRequest>, env: Env): (Peer, Shared)
    decreases |reqs|
  {
    if reqs == [] then (p, s)
    else
      var (p', s') := OpenWrites(p, s, reqs[..|reqs| - 1], env);
      OpenWrite(p', s', reqs[|reqs| - 1].topic, env)
  }

  // ----- closing -----

  function WriteTopics(reqs: seq<WriteRequest>): set<string> {
    set k | 0 <= k < |reqs| :: reqs[k].topic
  }

  function ReadsToClose(p: Peer): map<string, Channel> {
    map t | t in p.outbound && t !in p.reqRead :: p.outbound[t]
  }

  function TracksToStop(p: Peer): map<string, Channel> {
    map t | t in p.tracks && t in p.inUse && t !in p.reqRead :: p.tracks[t]
  }

  function WritesToClose(p: Peer): map<string, Channel> {
    map t | t in p.inbound && t !in WriteTopics(p.reqWrite) :: p.inbound[t]
  }

  function CloseReads(p: Peer, s: Shared, closing: map<string, Channel>): (Peer, Shared) {
    (p.(outbound := p.outbound - closing.Keys), s.(readers := DropOutputs(s.readers, closing - {HEARTBEAT})))
  }

  /** Tracks are closed only when the connection is; otherwise they are kept, paused. */
  function StopTracks(p: Peer, s: Shared, stopping: map<string, Channel>, close: bool): (Peer, Shared) {
    (p.(tracks := if close then p.tracks - stopping.Keys else p.tracks, inUse := p.inUse - stopping.Keys),
     s.(media := DropOutputs(s.media, stopping)))
  }

  function CloseWrites(p: Peer, s: Shared, closing: map<string, Channel>): (Peer, Shared) {
    (p.(inbound := p.inbound - closing.Keys), s.(writers := DropInputs(s.writers, closing - {HEARTBEAT})))
  }

  // ----- a pass -----

  /** On a reconnect the channels are forgotten and a new peer connection is made. */
  function Restarted(p: Peer, s: Shared, reconnect: bool): (Peer, Shared) {
    if reconnect then
      (p.(negotiation := true, needsRestart := false, outbound := map[], inbound := map[], pc := Some(|s.created|)),
       s.(created := s.created + [Owner(Connection, p.id, "")]))
    else (p.(negotiation := false), s)
  }

  function OpenAll(p: Peer, s: Shared, env: Env): (Peer, Shared) {
    var (p', s') := OpenReads(p, s, p.reqRead, env);
    OpenWrites(p', s', p.reqWrite, env)
  }

  function CloseAll(p: Peer, s: Shared, close: bool): (Peer, Shared) {
    var (p1, s1) := CloseReads(p, s, ReadsToClose(p));
    var (p2, s2) := StopTracks(p1, s1, TracksToStop(p1), close);
    CloseWrites(p2, s2, WritesToClose(p2))
  }

  /** From the reset of `negotiation_needed` to the last channel closed. */
  function Reconciled(p: Peer, s: Shared, reconnect: bool, env: Env): (Peer, Shared) {
    var (p1, s1) := Restarted(p, s, reconnect);
    var (p2, s2) := OpenAll(p1, s1, env);
    CloseAll(p2, s2, reconnect || !p.connected)
  }

  /** A whole pass up to the wait for the reply: an offer is made if it is needed, and a disconnected
      peer loses its peer connection. */
  function Pass(p: Peer, s: Shared, env: Env): (Peer, Shared) {
    var (p', s') := Reconciled(p, s, IsReconnect(p, env), env);
    if p'.connected then (p'.(awaiting := p'.negotiation), s') else (p'.(awaiting := false, pc := None), s')
  }

  /** What follows the loops. */
  lemma PassFinishes(p: Peer, s: Shared, env: Env)
    ensures var (q, s') := Reconciled(p, s, IsReconnect(p, env), env);
            q.connected == p.connected ==>
              Pass(p, s, env) == (q.(awaiting := q.connected && q.negotiation,
                                     pc := if !q.connected && !IsReconnect(p, env) then None else q.pc), s')
  {
  }

  // ----- what a pass leaves -----

  function DataTopics(ts: seq<string>, env: Env): set<string> {
    set t | t in ts && DataTopic(env, t)
  }

  function MediaTopics(ts: seq<string>, env: Env): set<string> {
    set t | t in ts && MediaTopic(env, t)
  }

  /** The same of one topic. */
  function DataTopicOf(t: string, env: Env): set<string> {
    if DataTopic(env, t) then {t} else {}
  }

  function MediaTopicOf(t: string, env: Env): set<string> {
    if MediaTopic(env, t) then {t} else {}
  }

  /** What the opening loops leave alone. */
  ghost predicate SameRequests(p: Peer, p': Peer) {
    && p'.id == p.id && p'.connected == p.connected && p'.pc == p.pc && p'.needsRestart == p.needsRestart
    && p'.reqRead == p.reqRead && p'.reqWrite == p.reqWrite && p'.awaiting == p.awaiting
  }

  /** `topics` are added; no entry is lost or changed. */
  ghost predicate Grows(m: map<string, Channel>, m': map<string, Channel>, topics: set<string>) {
    m'.Keys == m.Keys + topics && forall t :: t in m ==> m'[t] == m[t]
  }

  /** What opening the data topics `data` and the media topics `media` does to the peer. */
  ghost predicate Opens(p: Peer, p': Peer, data: set<string>, media: set<string>) {
    && SameRequests(p, p') && p'.inbound == p.inbound
    && Grows(p.outbound, p'.outbound, data)
    && Grows(p.tracks, p'.tracks, media) && p'.inUse == p.inUse + media
    && (p'.negotiation <==> p.negotiation || !(data <= p.outbound.Keys) || !(media <= p.tracks.Keys))
  }

  lemma ReadOpens(p: Peer, dc: Channel, t: string)
    ensures Opens(p, Reading(p, t, dc), {t}, {})
  {
    if t in p.outbound {
      return;
    }
  }

  lemma TrackOpens(p: Peer, c: Channel, t: string)
    ensures Opens(p, Showing(p, t, c), {}, {t})
  {
    if t in p.tracks {
      return;
    }
  }

  lemma OpensInTurn(p: Peer, q: Peer, r: Peer, data: set<string>, media: set<string>, data': set<string>,
                    media': set<string>)
    requires Opens(p, q, data, media) && Opens(q, r, data', media')
    ensures Opens(p, r, data + data', media + media')
  {
  }

  lemma RequestedOpens(p: Peer, s: Shared, t: string, env: Env)
    ensures Opens(p, OpenRequested(p, s, t, env).0, DataTopicOf(t, env), MediaTopicOf(t, env))
  {
    if DataTopic(env, t) {
      ReadOpens(p, NewChannel(p, s), t);
    } else if MediaTopic(env, t) {
      TrackOpens(p, Channel(|s.created|, p.pc, 0), t);
    }
  }

  lemma {:induction false} ReadsOpened(p: Peer, s: Shared, ts: seq<string>, env: Env)
    ensures Opens(p, OpenReads(p, s, ts, env).0, DataTopics(ts, env), MediaTopics(ts, env))
    decreases |ts|
  {
    if ts != [] {
      var init, t := ts[..|ts| - 1], ts[|ts| - 1];
      var (q, s') := OpenReads(p, s, init, env);
      var data, media := DataTopics(init, env), MediaTopics(init, env);
      ReadsOpened(p, s, init, env);
      TopicsOfLast(ts, env);
      RequestedOpens(q, s', t, env);
      OpensInTurn(p, q, OpenRequested(q, s', t, env).0, data, media,
                  DataTopicOf(t, env), MediaTopicOf(t, env));
    }
  }

  lemma TopicsOfLast(ts: seq<string>, env: Env)
    requires ts != []
    ensures var init, t := ts[..|ts| - 1], ts[|ts| - 1];
            && DataTopics(ts, env) == DataTopics(init, env) + DataTopicOf(t, env)
            && MediaTopics(ts, env) == MediaTopics(init, env) + MediaTopicOf(t, env)
  {
    assert ts == ts[..|ts| - 1] + [ts[|ts| - 1]];
  }

  lemma WriteTopicsOfLast(reqs: seq<WriteRequest>)
    requires reqs != []
    ensures WriteTopics(reqs) == WriteTopics(reqs[..|reqs| - 1]) + {reqs[|reqs| - 1].topic}
  {
    var init := reqs[..|reqs| - 1];
    forall t | t in WriteTopics(reqs)
      ensures t in WriteTopics(init) || t == reqs[|init|].topic
    {
      var k :| 0 <= k < |reqs| && reqs[k].topic == t;
      if k < |init| {
        assert init[k].topic == t;
      }
    }
    forall t | t in WriteTopics(init)
      ensures t in WriteTopics(reqs)
    {
      var k :| 0 <= k < |init| && init[k].topic == t;
      assert reqs[k].topic == t;
    }
  }

  ghost predicate WritesOpen(p: Peer, p': Peer, topics: set<string>) {
    && SameRequests(p, p') && p'.outbound == p.outbound && p'.tracks == p.tracks && p'.inUse == p.inUse
    && Grows(p.inbound, p'.inbound, topics)
    && (p'.negotiation <==> p.negotiation || !(topics <= p.inbound.Keys))
  }

  lemma WritesInTurn(p: Peer, q: Peer, dc: Channel, topics: set<string>, t: string)
    requires WritesOpen(p, q, topics)
    ensures WritesOpen(p, Writing(q, t, dc), topics + {t})
  {
    if t in q.inbound {
      return;
    }
  }

  lemma {:induction false} WritesOpened(p: Peer, s: Shared, reqs: seq<WriteRequest>, env: Env)
    ensures WritesOpen(p, OpenWrites(p, s, reqs, env).0, WriteTopics(reqs))
    decreases |reqs|
  {
    if reqs != [] {
      var init, t := reqs[..|reqs| - 1], reqs[|reqs| - 1].topic;
      var (q, s') := OpenWrites(p, s, init, env);
      WritesOpened(p, s, init, env);
      WritesInTurn(p, q, NewChannel(q, s'), WriteTopics(init), t);
      WriteTopicsOfLast(reqs);
      assert OpenWrites(p, s, reqs, env) == OpenWrite(q, s', t, env);
      assert OpenWrites(p, s, reqs, env).0 == Writing(q, t, NewChannel(q, s'));
    }
  }

  /** What both opening loops do to the peer. */
  ghost predicate OpensAll(p: Peer, p': Peer, data: set<string>, media: set<string>, write: set<string>) {
    && SameRequests(p, p')
    && Grows(p.outbound, p'.outbound, data)
    && Grows(p.inbound, p'.inbound, write)
    && Grows(p.tracks, p'.tracks, media) && p'.inUse == p.inUse + media
    && (p'.negotiation <==>
          p.negotiation || !(data <= p.outbound.Keys) || !(media <= p.tracks.Keys) || !(write <= p.inbound.Keys))
  }

  lemma AllOpened(p: Peer, s: Shared, env: Env)
    ensures OpensAll(p, OpenAll(p, s, env).0, DataTopics(p.reqRead, env), MediaTopics(p.reqRead, env),
            WriteTopics(p.reqWrite))
  {
    var (q, s') := OpenReads(p, s, p.reqRead, env);
    ReadsOpened(p, s, p.reqRead, env);
    WritesOpened(q, s', p.reqWrite, env);
  }

  function Topics(ts: seq<string>): set<string> {
    set t | t in ts
  }

  /** What the closing loops do to the peer. */
  lemma AllClosed(p: Peer, s: Shared, close: bool)
    ensures var p' := CloseAll(p, s, close).0;
            p' == p.(outbound := p'.outbound, inbound := p'.inbound, tracks := p'.tracks, inUse := p'.inUse)
    ensures var p' := CloseAll(p, s, close).0;
            && p'.outbound == p.outbound - (p.outbound.Keys - Topics(p.reqRead))
            && p'.inbound == p.inbound - (p.inbound.Keys - WriteTopics(p.reqWrite))
            && p'.tracks == (if close then p.tracks - (p.tracks.Keys * p.inUse - Topics(p.reqRead)) else p.tracks)
            && p'.inUse == p.inUse - (p.tracks.Keys * p.inUse - Topics(p.reqRead))
  {
    assert ReadsToClose(p).Keys == p.outbound.Keys - Topics(p.reqRead);
    assert TracksToStop(p).Keys == p.tracks.Keys * p.inUse - Topics(p.reqRead);
    assert WritesToClose(p).Keys == p.inbound.Keys - WriteTopics(p.reqWrite);
  }

  /** After any pass the open data channels and the tracks in use are exactly the requested ones: for
      writing all of them, for reading those discovered as such or open already (after a reconnect no data
      channel is). */
  lemma PassReconciles(p: Peer, s: Shared, env: Env)
    requires p.inUse <= p.tracks.Keys
    ensures var p' := Pass(p, s, env).0;
            p'.inbound.Keys == WriteTopics(p.reqWrite)
    ensures var (p', reconnect) := (Pass(p, s, env).0, IsReconnect(p, env));
            p'.outbound.Keys ==
              DataTopics(p.reqRead, env) + (if reconnect then {} else p.outbound.Keys * Topics(p.reqRead))
    ensures var p' := Pass(p, s, env).0;
            p'.inUse == MediaTopics(p.reqRead, env) + p.inUse * Topics(p.reqRead) && p'.inUse <= p'.tracks.Keys
  {
    var reconnect := IsReconnect(p, env);
    var (p1, s1) := Restarted(p, s, reconnect);
    LoopsReconcile(p1, s1, reconnect || !p.connected, env);
    AfterLoops(p, s, env);
    assert p1.inUse == p.inUse && p1.reqRead == p.reqRead && p1.reqWrite == p.reqWrite;
  }

  /** The channels and tracks after a pass are those after its loops. */
  lemma AfterLoops(p: Peer, s: Shared, env: Env)
    ensures var (p1, s1) := Restarted(p, s, IsReconnect(p, env));
            var (p2, s2) := OpenAll(p1, s1, env);
            var (p', q) := (Pass(p, s, env).0, CloseAll(p2, s2, IsReconnect(p, env) || !p.connected).0);
            p'.outbound == q.outbound && p'.inbound == q.inbound && p'.tracks == q.tracks && p'.inUse == q.inUse
  {
  }

  /** The loops of a pass. */
  lemma LoopsReconcile(p: Peer, s: Shared, close: bool, env: Env)
    requires p.inUse <= p.tracks.Keys
    ensures var (p1, s1) := OpenAll(p, s, env);
            var p' := CloseAll(p1, s1, close).0;
            && p'.inbound.Keys == WriteTopics(p.reqWrite)
            && p'.outbound.Keys == DataTopics(p.reqRead, env) + p.outbound.Keys * Topics(p.reqRead)
            && p'.inUse == MediaTopics(p.reqRead, env) + p.inUse * Topics(p.reqRead) && p'.inUse <= p'.tracks.Keys
  {
    var (p1, s1) := OpenAll(p, s, env);
    AllOpened(p, s, env);
    AllClosed(p1, s1, close);
    ReconciledKeys(p, p1, CloseAll(p1, s1, close).0, env);
  }

  /** No channel is replaced by a pass that is not a reconnect, and no track by any pass. */
  lemma NothingReplaced(p: Peer, s: Shared, env: Env)
    ensures var (p', reconnect) := (Pass(p, s, env).0, IsReconnect(p, env));
            && (!reconnect ==> forall t :: t in p.outbound && t in p'.outbound ==> p'.outbound[t] == p.outbound[t])
            && (!reconnect ==> forall t :: t in p.inbound && t in p'.inbound ==> p'.inbound[t] == p.inbound[t])
            && (forall t :: t in p.tracks && t in p'.tracks ==> p'.tracks[t] == p.tracks[t])
  {
    var reconnect := IsReconnect(p, env);
    var (p1, s1) := Restarted(p, s, reconnect);
    var (p2, s2) := OpenAll(p1, s1, env);
    AllOpened(p1, s1, env);
    AllClosed(p2, s2, reconnect || !p2.connected);
  }

  lemma ReconciledKeys(p: Peer, q: Peer, p': Peer, env: Env)
    requires p.inUse <= p.tracks.Keys
    requires OpensAll(p, q, DataTopics(p.reqRead, env), MediaTopics(p.reqRead, env), WriteTopics(p.reqWrite))
    requires p'.outbound.Keys == q.outbound.Keys * Topics(p.reqRead)
    requires p'.inbound.Keys == q.inbound.Keys * WriteTopics(p.reqWrite)
    requires p'.inUse == q.inUse - (q.tracks.Keys * q.inUse - Topics(p.reqRead))
    ensures p'.inbound.Keys == WriteTopics(p.reqWrite)
    ensures p'.outbound.Keys == DataTopics(p.reqRead, env) + p.outbound.Keys * Topics(p.reqRead)
    ensures p'.inUse == MediaTopics(p.reqRead, env) + p.inUse * Topics(p.reqRead)
  {
  }

  /** A pass asks for negotiation exactly when it is a reconnect or opened something, that is, when it
      left a channel or a track that was not there before. */
  lemma NegotiationIff(p: Peer, s: Shared, env: Env)
    requires p.inUse <= p.tracks.Keys
    ensures var (p', reconnect) := (Pass(p, s, env).0, IsReconnect(p, env));
            p'.negotiation <==>
              || reconnect || !(p'.outbound.Keys <= p.outbound.Keys) || !(p'.inbound.Keys <= p.inbound.Keys)
              || !(p'.tracks.Keys <= p.tracks.Keys)
  {
    var reconnect := IsReconnect(p, env);
    var (p1, s1) := Restarted(p, s, reconnect);
    var (p2, s2) := OpenAll(p1, s1, env);
    AllOpened(p1, s1, env);
    AllClosed(p2, s2, reconnect || !p2.connected);
    PassReconciles(p, s, env);
    if !reconnect {
      var media := MediaTopics(p.reqRead, env);
      assert media <= Topics(p.reqRead);
      assert Pass(p, s, env).0.tracks.Keys <= p.tracks.Keys <==> media <= p.tracks.Keys;
    }
  }

  /** A pass changes no request; only a disconnected peer is without peer connection after it. */
  lemma PassRequests(p: Peer, s: Shared, env: Env)
    ensures var p' := Pass(p, s, env).0;
            && p'.id == p.id && p'.connected == p.connected && p'.reqRead == p.reqRead && p'.reqWrite == p.reqWrite
            && (p'.connected ==> p'.pc == if IsReconnect(p, env) then Some(|s.created|) else p.pc)
            && (!p'.connected ==> p'.pc == None)
  {
    var (p1, s1) := Restarted(p, s, IsReconnect(p, env));
    AllOpened(p1, s1, env);
    var (p2, s2) := OpenAll(p1, s1, env);
    AllClosed(p2, s2, IsReconnect(p, env) || !p.connected);
  }
}
