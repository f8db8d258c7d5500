/** The closing loops one topic at a time, and the message a pass sends to its peer (src/wrtc_peer.cpp). */
module PeerUpdates {
  import opened Options
  import opened Channels
  import opened TopicReaders
  import opened TopicWriters
  import opened Reconcile

  // ----- closing one topic -----

  /** `unsubscribeReadDataTopic`. */
  function CloseRead(p: Peer, s: Shared, t: string): (Peer, Shared) {
    if t !in p.outbound then (p, s)
    else
      (p.(outbound := p.outbound - {t}),
       if t == HEARTBEAT then s else s.(readers := WithoutOutput(s.readers, t, p.outbound[t])))
  }

  /** `unsubscribeMediaTopic`. */
  function StopTrack(p: Peer, s: Shared, t: string, close: bool): (Peer, Shared) {
    if t !in p.tracks || (t !in p.inUse && !close) then (p, s)
    else
      (p.(tracks := if close then p.tracks - {t} else p.tracks, inUse := p.inUse - {t}),
       s.(media := WithoutOutput(s.media, t, p.tracks[t])))
  }

  /** `unsubscribeWriteDataTopic`. */
  function CloseWrite(p: Peer, s: Shared, t: string): (Peer, Shared) {
    if t !in p.inbound then (p, s)
    else
      (p.(inbound := p.inbound - {t}),
       if t == HEARTBEAT then s else s.(writers := WithoutInput(s.writers, t, p.inbound[t])))
  }

  lemma MinusMore(m: map<string, Channel>, done: map<string, Channel>, t: string, dc: Channel)
    ensures m - done.Keys - {t} == m - done[t := dc].Keys
    ensures t == HEARTBEAT ==> done[t := dc] - {HEARTBEAT} == done - {HEARTBEAT}
    ensures t != HEARTBEAT ==> done[t := dc] - {HEARTBEAT} == (done - {HEARTBEAT})[t := dc]
  {
  }

  lemma CloseReadsStep(p: Peer, s: Shared, done: map<string, Channel>, t: string)
    requires t in p.outbound && t !in done
    ensures var (q, s1) := CloseReads(p, s, done);
            CloseRead(q, s1, t) == CloseReads(p, s, done[t := p.outbound[t]])
  {
    var dc := p.outbound[t];
    MinusMore(p.outbound, done, t, dc);
    if t != HEARTBEAT {
      TopicReaders.DropStep(s.readers, done - {HEARTBEAT}, t, dc);
    }
  }

  lemma StopTracksStep(p: Peer, s: Shared, done: map<string, Channel>, t: string, close: bool)
    requires t in p.tracks && t in p.inUse && t !in done
    ensures var (q, s1) := StopTracks(p, s, done, close);
            StopTrack(q, s1, t, close) == StopTracks(p, s, done[t := p.tracks[t]], close)
  {
    var dc := p.tracks[t];
    MinusMore(p.tracks, done, t, dc);
    TopicReaders.DropStep(s.media, done, t, dc);
    assert p.inUse - done.Keys - {t} == p.inUse - done[t := dc].Keys;
  }

  lemma CloseWritesStep(p: Peer, s: Shared, done: map<string, Channel>, t: string)
    requires t in p.inbound && t !in done
    ensures var (q, s1) := CloseWrites(p, s, done);
            CloseWrite(q, s1, t) == CloseWrites(p, s, done[t := p.inbound[t]])
  {
    var dc := p.inbound[t];
    MinusMore(p.inbound, done, t, dc);
    if t != HEARTBEAT {
      TopicWriters.DropStep(s.writers, done - {HEARTBEAT}, t, dc);
    }
  }

  lemma MinusLess(m: map<string, Channel>, rest: set<string>, t: string)
    requires t in rest && t in m
    ensures (m - rest)[t := m[t]] == m - (rest - {t})
  {
  }

  /** One round of a closing loop: `rest` are the topics still to close. */
  lemma CloseReadsNext(p: Peer, s: Shared, rest: set<string>, t: string)
    requires t in rest && rest <= ReadsToClose(p).Keys
    ensures var (q, s1) := CloseReads(p, s, ReadsToClose(p) - rest);
            CloseRead(q, s1, t) == CloseReads(p, s, ReadsToClose(p) - (rest - {t}))
  {
    CloseReadsStep(p, s, ReadsToClose(p) - rest, t);
    MinusLess(ReadsToClose(p), rest, t);
  }

  lemma StopTracksNext(p: Peer, s: Shared, rest: set<string>, t: string, close: bool)
    requires t in rest && rest <= TracksToStop(p).Keys
    ensures var (q, s1) := StopTracks(p, s, TracksToStop(p) - rest, close);
            StopTrack(q, s1, t, close) == StopTracks(p, s, TracksToStop(p) - (rest - {t}), close)
  {
    StopTracksStep(p, s, TracksToStop(p) - rest, t, close);
    MinusLess(TracksToStop(p), rest, t);
  }

  lemma CloseWritesNext(p: Peer, s: Shared, rest: set<string>, t: string)
    requires t in rest && rest <= WritesToClose(p).Keys
    ensures var (q, s1) := CloseWrites(p, s, WritesToClose(p) - rest);
            CloseWrite(q, s1, t) == CloseWrites(p, s, WritesToClose(p) - (rest - {t}))
  {
    CloseWritesStep(p, s, WritesToClose(p) - rest, t);
    MinusLess(WritesToClose(p), rest, t);
  }

  /** The ends of a closing loop. */
  lemma MinusAll(m: map<string, Channel>)
    ensures m - m.Keys == map[] && m - {} == m
  {
  }

  lemma CloseNothing(p: Peer, s: Shared, close: bool)
    ensures CloseReads(p, s, map[]) == (p, s) && StopTracks(p, s, map[], close) == (p, s)
            && CloseWrites(p, s, map[]) == (p, s)
  {
    var none: map<string, Channel> := map[];
    assert none - {HEARTBEAT} == none && none.Keys == {};
    assert CloseReads(p, s, none) == (p, s) by {
      assert p.outbound - {} == p.outbound && DropOutputs(s.readers, none) == s.readers;
    }
    assert StopTracks(p, s, none, close) == (p, s) by {
      assert p.tracks - {} == p.tracks && p.inUse - {} == p.inUse && DropOutputs(s.media, none) == s.media;
    }
    assert CloseWrites(p, s, none) == (p, s) by {
      assert p.inbound - {} == p.inbound && DropInputs(s.writers, none) == s.writers;
    }
  }

  lemma CloseReadsEnds(p: Peer, s: Shared)
    ensures var c := ReadsToClose(p);
            CloseReads(p, s, c - c.Keys) == (p, s) && CloseReads(p, s, c - {}) == CloseReads(p, s, c)
  {
    MinusAll(ReadsToClose(p));
    CloseNothing(p, s, false);
  }

  lemma StopTracksEnds(p: Peer, s: Shared, close: bool)
    ensures var c := TracksToStop(p);
            && StopTracks(p, s, c - c.Keys, close) == (p, s)
            && StopTracks(p, s, c - {}, close) == StopTracks(p, s, c, close)
  {
    MinusAll(TracksToStop(p));
    CloseNothing(p, s, close);
  }

  lemma CloseWritesEnds(p: Peer, s: Shared)
    ensures var c := WritesToClose(p);
            CloseWrites(p, s, c - c.Keys) == (p, s) && CloseWrites(p, s, c - {}) == CloseWrites(p, s, c)
  {
    MinusAll(WritesToClose(p));
    CloseNothing(p, s, false);
  }

  // ----- the opening loops, one round -----

  lemma OpenReadsNext(p: Peer, s: Shared, ts: seq<string>, i: nat, env: Env)
    requires i < |ts|
    ensures ts[..i + 1] == ts[..i] + [ts[i]]
    ensures var (q, s1) := OpenReads(p, s, ts[..i], env);
            OpenReads(p, s, ts[..i + 1], env) == OpenRequested(q, s1, ts[i], env)
  {
    assert ts[..i + 1][..i] == ts[..i];
  }

  lemma OpenWritesNext(p: Peer, s: Shared, reqs: seq<WriteRequest>, i: nat, env: Env)
    requires i < |reqs|
    ensures reqs[..i + 1] == reqs[..i] + [reqs[i]]
    ensures var (q, s1) := OpenWrites(p, s, reqs[..i], env);
            OpenWrites(p, s, reqs[..i + 1], env) == OpenWrite(q, s1, reqs[i].topic, env)
  {
    assert reqs[..i + 1][..i] == reqs[..i];
  }

  // ----- the message to the peer -----

  /** The entries of `read_data_channels`, `write_data_channels` and `read_video_streams`: a topic with
      the id of its channel or stream, or with none when it was closed. Their order is left out. */
  datatype Reply = Reply(
    read: map<string, Option<nat>>, write: map<string, Option<nat>>, video: map<string, Option<nat>>)

  /** The entries for what is open or requested after the opening loops. */
  function Entry(own: map<string, Channel>, listed: set<string>, closed: set<string>): map<string, Option<nat>> {
    map t | t in own && (t in listed || t in closed) :: if t in closed then None else Some(own[t].id)
  }

  /** A stream has a name of its own; its track's serial number stands for it. */
  function VideoEntry(own: map<string, Channel>, listed: set<string>, closed: set<string>): map<string, Option<nat>> {
    map t | t in own && (t in listed || t in closed) :: if t in closed then None else Some(own[t].serial)
  }

  /** The message, from the peer as the opening loops leave it. */
  function ReplyOf(p: Peer, env: Env): Reply {
    Reply(Entry(p.outbound, DataTopics(p.reqRead, env), ReadsToClose(p).Keys),
          Entry(p.inbound, WriteTopics(p.reqWrite), WritesToClose(p).Keys),
          VideoEntry(p.tracks, MediaTopics(p.reqRead, env), TracksToStop(p).Keys))
  }

  function ReconciledReply(p: Peer, s: Shared, reconnect: bool, env: Env): Reply {
    var (p1, s1) := Restarted(p, s, reconnect);
    ReplyOf(OpenAll(p1, s1, env).0, env)
  }

  function PassReply(p: Peer, s: Shared, env: Env): Reply {
    ReconciledReply(p, s, IsReconnect(p, env), env)
  }

  /** `entries` lists the channels of `topics`. */
  ghost predicate Listed(entries: map<string, Option<nat>>, own: map<string, Channel>, topics: set<string>) {
    entries.Keys == topics && topics <= own.Keys && forall t :: t in topics ==> entries[t] == Some(own[t].id)
  }

  ghost predicate StreamsListed(entries: map<string, Option<nat>>, own: map<string, Channel>, topics: set<string>) {
    entries.Keys == topics && topics <= own.Keys && forall t :: t in topics ==> entries[t] == Some(own[t].serial)
  }

  lemma ListedKept(entries: map<string, Option<nat>>, own: map<string, Channel>, own': map<string, Channel>,
                   topics: set<string>)
    requires forall t :: t in own ==> t in own' && own'[t] == own[t]
    ensures Listed(entries, own, topics) ==> Listed(entries, own', topics)
    ensures StreamsListed(entries, own, topics) ==> StreamsListed(entries, own', topics)
  {
  }

  lemma ListedMore(entries: map<string, Option<nat>>, own: map<string, Channel>, topics: set<string>, t: string)
    requires t in own
    ensures Listed(entries, own, topics) ==> Listed(entries[t := Some(own[t].id)], own, topics + {t})
    ensures StreamsListed(entries, own, topics) ==> StreamsListed(entries[t := Some(own[t].serial)], own, topics + {t})
  {
  }

  lemma ListedNextRead(p: Peer, p': Peer, ts: seq<string>, t: string, env: Env, read: map<string, Option<nat>>,
                       entry: Option<nat>)
    requires Listed(read, p.outbound, DataTopics(ts, env)) && Grows(p.outbound, p'.outbound, DataTopicOf(t, env))
    requires DataTopic(env, t) ==> t in p'.outbound && entry == Some(p'.outbound[t].id)
    ensures Listed(if DataTopic(env, t) then read[t := entry] else read, p'.outbound, DataTopics(ts + [t], env))
  {
    TopicsOfNext(ts, t, env);
    ListedKept(read, p.outbound, p'.outbound, DataTopics(ts, env));
    if DataTopic(env, t) {
      ListedMore(read, p'.outbound, DataTopics(ts, env), t);
    }
  }

  lemma ListedNextTrack(p: Peer, p': Peer, ts: seq<string>, t: string, env: Env, video: map<string, Option<nat>>,
                        entry: Option<nat>)
    requires StreamsListed(video, p.tracks, MediaTopics(ts, env)) && Grows(p.tracks, p'.tracks, MediaTopicOf(t, env))
    requires MediaTopic(env, t) ==> t in p'.tracks && entry == Some(p'.tracks[t].serial)
    ensures StreamsListed(if MediaTopic(env, t) then video[t := entry] else video, p'.tracks,
            MediaTopics(ts + [t], env))
  {
    TopicsOfNext(ts, t, env);
    ListedKept(video, p.tracks, p'.tracks, MediaTopics(ts, env));
    if MediaTopic(env, t) {
      ListedMore(video, p'.tracks, MediaTopics(ts, env), t);
    }
  }

  lemma TopicsOfNext(ts: seq<string>, t: string, env: Env)
    ensures DataTopics(ts + [t], env) == DataTopics(ts, env) + DataTopicOf(t, env)
    ensures MediaTopics(ts + [t], env) == MediaTopics(ts, env) + MediaTopicOf(t, env)
  {
    TopicsOfLast(ts + [t], env);
    assert (ts + [t])[..|ts|] == ts;
  }

  /** One more round of the first loop. */
  lemma ListedNext(p: Peer, p': Peer, ts: seq<string>, t: string, env: Env, read: map<string, Option<nat>>,
                   video: map<string, Option<nat>>, entry: Option<nat>)
    requires Listed(read, p.outbound, DataTopics(ts, env)) && StreamsListed(video, p.tracks, MediaTopics(ts, env))
    requires Opens(p, p', DataTopicOf(t, env), MediaTopicOf(t, env))
    requires DataTopic(env, t) ==> entry == Some(p'.outbound[t].id)
    requires MediaTopic(env, t) ==> entry == Some(p'.tracks[t].serial)
    ensures Listed(if DataTopic(env, t) then read[t := entry] else read, p'.outbound, DataTopics(ts + [t], env))
    ensures StreamsListed(if MediaTopic(env, t) then video[t := entry] else video, p'.tracks,
            MediaTopics(ts + [t], env))
  {
    ListedNextRead(p, p', ts, t, env, read, entry);
    ListedNextTrack(p, p', ts, t, env, video, entry);
  }

  /** One more round of the second loop. */
  lemma WrittenNext(p: Peer, p': Peer, reqs: seq<WriteRequest>, r: WriteRequest, dc: Channel,
                    write: map<string, Option<nat>>)
    requires Listed(write, p.inbound, WriteTopics(reqs)) && p'.inbound == Writing(p, r.topic, dc).inbound
    ensures Listed(write[r.topic := Some(p'.inbound[r.topic].id)], p'.inbound, WriteTopics(reqs + [r]))
  {
    WriteTopicsOfLast(reqs + [r]);
    assert (reqs + [r])[..|reqs|] == reqs;
    if r.topic in p.inbound {
      return;
    }
  }

  function Closed(topics: set<string>): map<string, Option<nat>> {
    map t | t in topics :: None
  }

  lemma EntryIs(entries: map<string, Option<nat>>, own: map<string, Channel>, topics: set<string>, closed: set<string>)
    requires closed <= own.Keys && closed !! topics
    ensures Listed(entries, own, topics) ==> Entry(own, topics, closed) == entries + Closed(closed)
    ensures StreamsListed(entries, own, topics) ==> VideoEntry(own, topics, closed) == entries + Closed(closed)
  {
  }

  lemma ReplyIs(p: Peer, env: Env, read: map<string, Option<nat>>, write: map<string, Option<nat>>,
                video: map<string, Option<nat>>)
    requires Listed(read, p.outbound, DataTopics(p.reqRead, env)) && Listed(write, p.inbound, WriteTopics(p.reqWrite))
    requires StreamsListed(video, p.tracks, MediaTopics(p.reqRead, env))
    ensures ReplyOf(p, env) == Reply(read + Closed(ReadsToClose(p).Keys), write + Closed(WritesToClose(p).Keys),
                                     video + Closed(TracksToStop(p).Keys))
  {
    EntryIs(read, p.outbound, DataTopics(p.reqRead, env), ReadsToClose(p).Keys);
    EntryIs(write, p.inbound, WriteTopics(p.reqWrite), WritesToClose(p).Keys);
    EntryIs(video, p.tracks, MediaTopics(p.reqRead, env), TracksToStop(p).Keys);
  }

  /** What a client knows after reading a list of entries: an entry without id closes the topic. */
  function Told(known: map<string, nat>, entries: map<string, Option<nat>>): map<string, nat> {
    map t | t in known.Keys + entries.Keys && (t in entries ==> entries[t].Some?)
      :: if t in entries then entries[t].value else known[t]
  }

  function Ids(own: map<string, Channel>): map<string, nat> {
    map t | t in own :: own[t].id
  }

  function Streams(p: Peer): map<string, nat> {
    map t | t in p.tracks && t in p.inUse :: p.tracks[t].serial
  }

  /** A client that knew the ids of the open data channels, or after a reconnect none, knows them again
      once it has read the message of a pass. */
  lemma ClientKnowsChannels(p: Peer, s: Shared, env: Env)
    ensures var (p', r) := (Pass(p, s, env).0, PassReply(p, s, env));
            Told(if IsReconnect(p, env) then map[] else Ids(p.outbound), r.read) == Ids(p'.outbound)
    ensures var (p', r) := (Pass(p, s, env).0, PassReply(p, s, env));
            Told(if IsReconnect(p, env) then map[] else Ids(p.inbound), r.write) == Ids(p'.inbound)
  {
    var (p1, s1) := Restarted(p, s, IsReconnect(p, env));
    var (p2, s2) := OpenAll(p1, s1, env);
    AllOpened(p1, s1, env);
    AllClosed(p2, s2, IsReconnect(p, env) || !p.connected);
    var topics, write := Topics(p.reqRead), WriteTopics(p.reqWrite);
    ChannelsFollow(p1.outbound, p2.outbound, DataTopics(p.reqRead, env), topics);
    ChannelsFollow(p1.inbound, p2.inbound, write, write);
    assert ReadsToClose(p2).Keys == p2.outbound.Keys - topics && WritesToClose(p2).Keys == p2.inbound.Keys - write;
  }

  /** A client that knew the streams in use knows them again once it has read the message. */
  lemma ClientKnowsStreams(p: Peer, s: Shared, env: Env)
    requires p.inUse <= p.tracks.Keys
    ensures Told(Streams(p), PassReply(p, s, env).video) == Streams(Pass(p, s, env).0)
  {
    var (p1, s1) := Restarted(p, s, IsReconnect(p, env));
    var (p2, s2) := OpenAll(p1, s1, env);
    AllOpened(p1, s1, env);
    AllClosed(p2, s2, IsReconnect(p, env) || !p.connected);
    var (p3, s3) := CloseAll(p2, s2, IsReconnect(p, env) || !p.connected);
    var p' := Pass(p, s, env).0;
    assert p'.tracks == p3.tracks && p'.inUse == p3.inUse;
    StreamsFollow(p1, p2, p3, MediaTopics(p.reqRead, env));
  }

  lemma ChannelsFollow(m: map<string, Channel>, m': map<string, Channel>, listed: set<string>, topics: set<string>)
    requires Grows(m, m', listed) && listed <= topics
    ensures Told(Ids(m), Entry(m', listed, m'.Keys - topics)) == Ids(m' - (m'.Keys - topics))
  {
  }

  lemma StreamsFollow(p: Peer, q: Peer, p': Peer, listed: set<string>)
    requires p.inUse <= p.tracks.Keys && Grows(p.tracks, q.tracks, listed) && q.inUse == p.inUse + listed
    requires listed <= Topics(q.reqRead) && p'.inUse == q.inUse - TracksToStop(q).Keys
    requires p'.tracks == q.tracks || p'.tracks == q.tracks - TracksToStop(q).Keys
    ensures Told(Streams(p), VideoEntry(q.tracks, listed, TracksToStop(q).Keys)) == Streams(p')
  {
    var told := Told(Streams(p), VideoEntry(q.tracks, listed, TracksToStop(q).Keys));
    assert told.Keys == Streams(p').Keys;
    forall t | t in told
      ensures told[t] == Streams(p')[t]
    {
      assert t in p'.tracks && p'.tracks[t] == q.tracks[t];
    }
  }
}
