/** The class `WRTCPeer` (src/wrtc_peer.cpp), proved against the functions of `Reconcile`. */
module WrtcPeer {
  import opened Bridges
  import opened Options
  import opened Channels
  import opened TopicReaders
  import opened TopicWriters
  import opened Reconcile
  import opened Requests
  import opened PeerUpdates

  class WRTCPeer {
    const id: nat
    const bridge: Bridge

    var isConnected: bool
    var pc: Option<nat>
    var peerNeedsRestart: bool
    var outboundDataChannels: map<string, Channel>
    var inboundDataChannels: map<string, Channel>
    var outboundMediaTracks: map<string, Channel>
    var tracksInUse: set<string>
    var reqReadSubs: seq<string>
    var reqWriteSubs: seq<WriteRequest>
    var negotiationNeeded: bool
    var awaitingPeerReply: bool
    var nextChannelId: nat

    ghost predicate Valid()
      reads bridge, bridge.repr
    {
      bridge.Valid() && this !in bridge.repr
    }

    ghost function State(): Peer
      reads this
    {
      Peer(id, isConnected, pc, peerNeedsRestart, outboundDataChannels, inboundDataChannels, outboundMediaTracks,
           tracksInUse, reqReadSubs, reqWriteSubs, negotiationNeeded, awaitingPeerReply, nextChannelId)
    }

    constructor (id: nat, bridge: Bridge)
      requires bridge.Valid()
      modifies bridge.repr
      ensures Valid() && bridge.repr == old(bridge.repr) && this.bridge == bridge
      ensures State() == Peer(id, true, Some(|old(bridge.view).created|), false, map[], map[], map[], {}, [], [],
              false, false, 0)
      ensures bridge.view == Created(old(bridge.view), Owner(Connection, id, ""))
    {
      this.id, this.bridge := id, bridge;
      isConnected, peerNeedsRestart, negotiationNeeded, awaitingPeerReply := true, false, false, false;
      outboundDataChannels, inboundDataChannels, outboundMediaTracks, tracksInUse := map[], map[], map[], {};
      reqReadSubs, reqWriteSubs, nextChannelId, pc := [], [], 0, None;
      new;
      CreatePeerConnection();
    }

    method CreatePeerConnection()
      requires Valid()
      modifies this`pc, bridge.repr
      ensures Valid() && bridge.repr == old(bridge.repr)
      ensures pc == Some(|old(bridge.view).created|)
              && bridge.view == Created(old(bridge.view), Owner(Connection, id, ""))
    {
      var serial := bridge.Create(Owner(Connection, id, ""));
      pc := Some(serial);
    }

    /** `openDataChannelForTopic`, up to the handlers of the channel. */
    method OpenDataChannelForTopic(topic: string, write: bool) returns (dc: Channel)
      requires topic !in (if write then inboundDataChannels else outboundDataChannels)
      requires Valid()
      modifies this`nextChannelId, this`outboundDataChannels, this`inboundDataChannels, bridge.repr
      ensures Valid() && bridge.repr == old(bridge.repr)
      ensures dc == Channel(|old(bridge.view).created|, pc, (old(nextChannelId) + 1) % 0x1_0000)
      ensures bridge.view == Created(old(bridge.view), Owner(if write then Write else Read, id, topic))
      ensures nextChannelId == dc.id
      ensures outboundDataChannels == if write then old(outboundDataChannels)
              else old(outboundDataChannels)[topic := dc]
      ensures inboundDataChannels == if write then old(inboundDataChannels)[topic := dc] else old(inboundDataChannels)
    {
      nextChannelId := (nextChannelId + 1) % 0x1_0000;
      var serial := bridge.Create(Owner(if write then Write else Read, id, topic));
      dc := Channel(serial, pc, nextChannelId);
      if write {
        inboundDataChannels := inboundDataChannels[topic := dc];
      } else {
        outboundDataChannels := outboundDataChannels[topic := dc];
      }
    }

    /** The channel for reading `topic`: the open one or a new one. */
    method ReadChannel(topic: string) returns (dc: Channel)
      requires Valid()
      modifies this`nextChannelId, this`outboundDataChannels, this`inboundDataChannels, this`negotiationNeeded,
               bridge.repr
      ensures Valid() && bridge.repr == old(bridge.repr)
      ensures State() == Reading(old(State()), topic,
              Channel(|old(bridge.view).created|, old(pc), (old(nextChannelId) + 1) % 0x1_0000))
      ensures bridge.view == if topic in old(outboundDataChannels) then old(bridge.view)
              else Created(old(bridge.view), Owner(Read, id, topic))
      ensures topic in outboundDataChannels && outboundDataChannels[topic] == dc
    {
      if topic in outboundDataChannels {
        return outboundDataChannels[topic];
      }
      dc := OpenDataChannelForTopic(topic, false);
      negotiationNeeded := true;
    }

    method SubscribeReadDataTopic(topic: string, env: Env) returns (dcId: nat)
      requires Valid()
      modifies this`nextChannelId, this`outboundDataChannels, this`inboundDataChannels, this`negotiationNeeded
      modifies bridge.repr
      ensures Valid() && fresh(bridge.repr - old(bridge.repr))
      ensures State() == OpenRead(old(State()), old(bridge.view), topic, env).0
      ensures bridge.view == OpenRead(old(State()), old(bridge.view), topic, env).1
      ensures topic in outboundDataChannels && dcId == outboundDataChannels[topic].id
    {
      var dc := ReadChannel(topic);
      bridge.AddOutput(topic, dc, topic in env.creatable);
      return dc.id;
    }

    /** The track for `topic`: the one there is, put to use, or a new one. */
    method MediaTrack(topic: string) returns (track: Channel)
      requires Valid()
      modifies this`outboundMediaTracks, this`tracksInUse, this`negotiationNeeded, bridge.repr
      ensures Valid() && bridge.repr == old(bridge.repr)
      ensures State() == Showing(old(State()), topic, Channel(|old(bridge.view).created|, old(pc), 0))
      ensures bridge.view == if topic in old(outboundMediaTracks) then old(bridge.view)
              else Created(old(bridge.view), Owner(Media, id, topic))
      ensures topic in outboundMediaTracks && outboundMediaTracks[topic] == track
    {
      tracksInUse := tracksInUse + {topic};
      if topic in outboundMediaTracks {
        return outboundMediaTracks[topic];
      }
      var serial := bridge.Create(Owner(Media, id, topic));
      track := Channel(serial, pc, 0);
      outboundMediaTracks := outboundMediaTracks[topic := track];
      negotiationNeeded := true;
    }

    method SubscribeMediaTopic(topic: string) returns (stream: nat)
      requires Valid()
      modifies this`outboundMediaTracks, this`tracksInUse, this`negotiationNeeded, bridge.repr
      ensures Valid() && fresh(bridge.repr - old(bridge.repr))
      ensures State() == OpenTrack(old(State()), old(bridge.view), topic).0
      ensures bridge.view == OpenTrack(old(State()), old(bridge.view), topic).1
      ensures topic in outboundMediaTracks && stream == outboundMediaTracks[topic].serial
    {
      var track := MediaTrack(topic);
      bridge.AddMediaOutput(topic, track);
      return track.serial;
    }

    /** The channel for writing `topic`: the open one or a new one. */
    method WriteChannel(topic: string) returns (dc: Channel)
      requires Valid()
      modifies this`nextChannelId, this`outboundDataChannels, this`inboundDataChannels, this`negotiationNeeded,
               bridge.repr
      ensures Valid() && bridge.repr == old(bridge.repr)
      ensures State() == Writing(old(State()), topic,
              Channel(|old(bridge.view).created|, old(pc), (old(nextChannelId) + 1) % 0x1_0000))
      ensures bridge.view == if topic in old(inboundDataChannels) then old(bridge.view)
              else Created(old(bridge.view), Owner(Write, id, topic))
      ensures topic in inboundDataChannels && inboundDataChannels[topic] == dc
    {
      if topic in inboundDataChannels {
        return inboundDataChannels[topic];
      }
      dc := OpenDataChannelForTopic(topic, true);
      negotiationNeeded := true;
    }

    method SubscribeWriteDataTopic(topic: string, env: Env) returns (dcId: nat)
      requires Valid()
      modifies this`nextChannelId, this`outboundDataChannels, this`inboundDataChannels, this`negotiationNeeded
      modifies bridge.repr
      ensures Valid() && fresh(bridge.repr - old(bridge.repr))
      ensures State() == OpenWrite(old(State()), old(bridge.view), topic, env).0
      ensures bridge.view == OpenWrite(old(State()), old(bridge.view), topic, env).1
      ensures topic in inboundDataChannels && dcId == inboundDataChannels[topic].id
    {
      var dc := WriteChannel(topic);
      if topic == HEARTBEAT {
        return dc.id;
      }
      bridge.AddInput(topic, dc, topic in env.creatable);
      return dc.id;
    }

    method UnsubscribeReadDataTopic(topic: string) returns (removed: bool)
      requires Valid()
      modifies this`outboundDataChannels, bridge.repr
      ensures Valid() && bridge.repr == old(bridge.repr)
      ensures State() == CloseRead(old(State()), old(bridge.view), topic).0
      ensures bridge.view == CloseRead(old(State()), old(bridge.view), topic).1
      ensures removed <==> topic in old(outboundDataChannels)
    {
      if topic !in outboundDataChannels {
        return false;
      }
      if topic != HEARTBEAT {
        bridge.RemoveOutput(topic, outboundDataChannels[topic]);
      }
      outboundDataChannels := outboundDataChannels - {topic};
      return true;
    }

    method UnsubscribeMediaTopic(topic: string, closeChannel: bool) returns (removed: bool)
      requires Valid()
      modifies this`outboundMediaTracks, this`tracksInUse, bridge.repr
      ensures Valid() && bridge.repr == old(bridge.repr)
      ensures State() == StopTrack(old(State()), old(bridge.view), topic, closeChannel).0
      ensures bridge.view == StopTrack(old(State()), old(bridge.view), topic, closeChannel).1
      ensures removed <==> topic in old(outboundMediaTracks) && (topic in old(tracksInUse) || closeChannel)
    {
      if topic !in outboundMediaTracks {
        return false;
      }
      if topic !in tracksInUse && !closeChannel {
        return false;
      }
      tracksInUse := tracksInUse - {topic};
      bridge.RemoveMediaOutput(topic, outboundMediaTracks[topic]);
      if closeChannel {
        outboundMediaTracks := outboundMediaTracks - {topic};
      }
      return true;
    }

    method UnsubscribeWriteDataTopic(topic: string) returns (removed: bool)
      requires Valid()
      modifies this`inboundDataChannels, bridge.repr
      ensures Valid() && bridge.repr == old(bridge.repr)
      ensures State() == CloseWrite(old(State()), old(bridge.view), topic).0
      ensures bridge.view == CloseWrite(old(State()), old(bridge.view), topic).1
      ensures removed <==> topic in old(inboundDataChannels)
    {
      if topic !in inboundDataChannels {
        return false;
      }
      if topic != HEARTBEAT {
        bridge.RemoveInput(topic, inboundDataChannels[topic]);
      }
      inboundDataChannels := inboundDataChannels - {topic};
      return true;
    }

    /** One round of the first loop. */
    method OpenRequestedTopic(topic: string, env: Env) returns (entry: Option<nat>)
      requires Valid()
      modifies this`nextChannelId, this`outboundDataChannels, this`inboundDataChannels, this`outboundMediaTracks
      modifies this`tracksInUse, this`negotiationNeeded, bridge.repr
      ensures Valid() && fresh(bridge.repr - old(bridge.repr))
      ensures State() == OpenRequested(old(State()), old(bridge.view), topic, env).0
      ensures bridge.view == OpenRequested(old(State()), old(bridge.view), topic, env).1
      ensures DataTopic(env, topic) ==> topic in outboundDataChannels && entry == Some(outboundDataChannels[topic].id)
      ensures MediaTopic(env, topic) ==>
                topic in outboundMediaTracks && entry == Some(outboundMediaTracks[topic].serial)
    {
      if topic !in env.kinds {
        return None;
      }
      var found: nat;
      if env.kinds[topic].DataKind? {
        found := SubscribeReadDataTopic(topic, env);
      } else {
        found := SubscribeMediaTopic(topic);
      }
      return Some(found);
    }

    /** The first loop: open read channels and tracks. */
    method OpenRequestedReads(env: Env) returns (read: map<string, Option<nat>>, video: map<string, Option<nat>>)
      requires Valid()
      modifies this`nextChannelId, this`outboundDataChannels, this`inboundDataChannels, this`outboundMediaTracks
      modifies this`tracksInUse, this`negotiationNeeded, bridge.repr
      ensures Valid() && fresh(bridge.repr - old(bridge.repr))
      ensures (State(), bridge.view) == OpenReads(old(State()), old(bridge.view), reqReadSubs, env)
      ensures Listed(read, outboundDataChannels, DataTopics(reqReadSubs, env))
      ensures StreamsListed(video, outboundMediaTracks, MediaTopics(reqReadSubs, env))
    {
      ghost var p, s := State(), bridge.view;
      read, video := map[], map[];
      for i := 0 to |reqReadSubs|
        invariant Valid() && fresh(bridge.repr - old(bridge.repr))
        invariant (State(), bridge.view) == OpenReads(p, s, reqReadSubs[..i], env)
        invariant Listed(read, outboundDataChannels, DataTopics(reqReadSubs[..i], env))
        invariant StreamsListed(video, outboundMediaTracks, MediaTopics(reqReadSubs[..i], env))
      {
        var topic := reqReadSubs[i];
        OpenReadsNext(p, s, reqReadSubs, i, env);
        ghost var q, s1 := State(), bridge.view;
        var entry := OpenRequestedTopic(topic, env);
        RequestedOpens(q, s1, topic, env);
        ListedNext(q, State(), reqReadSubs[..i], topic, env, read, video, entry);
        if topic in env.kinds && env.kinds[topic].DataKind? {
          read := read[topic := entry];
        } else if topic in env.kinds {
          video := video[topic := entry];
        }
      }
      assert reqReadSubs[..|reqReadSubs|] == reqReadSubs;
    }

    /** One round of the second loop; the entry for the channel is added to the message. */
    method OpenNextWrite(sub: WriteRequest, ghost done: seq<WriteRequest>, env: Env, write: map<string, Option<nat>>)
      returns (write': map<string, Option<nat>>)
      requires Valid() && Listed(write, inboundDataChannels, WriteTopics(done))
      modifies this`nextChannelId, this`outboundDataChannels, this`inboundDataChannels, this`negotiationNeeded
      modifies bridge.repr
      ensures Valid() && fresh(bridge.repr - old(bridge.repr))
      ensures (State(), bridge.view) == OpenWrite(old(State()), old(bridge.view), sub.topic, env)
      ensures Listed(write', inboundDataChannels, WriteTopics(done + [sub]))
    {
      ghost var q, s1 := State(), bridge.view;
      var dcId := SubscribeWriteDataTopic(sub.topic, env);
      WrittenNext(q, State(), done, sub, NewChannel(q, s1), write);
      write' := write[sub.topic := Some(dcId)];
    }

    /** The second loop: open write channels. */
    method OpenRequestedWrites(env: Env) returns (write: map<string, Option<nat>>)
      requires Valid()
      modifies this`nextChannelId, this`outboundDataChannels, this`inboundDataChannels, this`negotiationNeeded
      modifies bridge.repr
      ensures Valid() && fresh(bridge.repr - old(bridge.repr))
      ensures (State(), bridge.view) == OpenWrites(old(State()), old(bridge.view), reqWriteSubs, env)
      ensures Listed(write, inboundDataChannels, WriteTopics(reqWriteSubs))
    {
      ghost var p, s := State(), bridge.view;
      write := map[];
      for i := 0 to |reqWriteSubs|
        invariant Valid() && fresh(bridge.repr - old(bridge.repr))
        invariant (State(), bridge.view) == OpenWrites(p, s, reqWriteSubs[..i], env)
        invariant Listed(write, inboundDataChannels, WriteTopics(reqWriteSubs[..i]))
      {
        OpenWritesNext(p, s, reqWriteSubs, i, env);
        write := OpenNextWrite(reqWriteSubs[i], reqWriteSubs[..i], env, write);
      }
      assert reqWriteSubs[..|reqWriteSubs|] == reqWriteSubs;
    }

    /** One round of the third loop. */
    method CloseNextRead(topic: string, ghost p: Peer, ghost s: Shared, ghost rest: set<string>)
      requires Valid() && topic in rest && rest <= ReadsToClose(p).Keys
      requires (State(), bridge.view) == CloseReads(p, s, ReadsToClose(p) - rest)
      modifies this`outboundDataChannels, bridge.repr
      ensures Valid() && bridge.repr == old(bridge.repr)
      ensures (State(), bridge.view) == CloseReads(p, s, ReadsToClose(p) - (rest - {topic}))
    {
      CloseReadsNext(p, s, rest, topic);
      var _ := UnsubscribeReadDataTopic(topic);
    }

    /** The third loop: close unused read channels. */
    method CloseUnusedReads() returns (closed: set<string>)
      requires Valid()
      modifies this`outboundDataChannels, bridge.repr
      ensures Valid() && bridge.repr == old(bridge.repr) && closed == ReadsToClose(old(State())).Keys
      ensures (State(), bridge.view) == CloseReads(old(State()), old(bridge.view), ReadsToClose(old(State())))
    {
      ghost var p, s := State(), bridge.view;
      closed := set t | t in outboundDataChannels && t !in reqReadSubs;
      var rest := closed;
      CloseReadsEnds(p, s);
      while rest != {}
        invariant Valid() && bridge.repr == old(bridge.repr) && rest <= closed == ReadsToClose(p).Keys
        invariant (State(), bridge.view) == CloseReads(p, s, ReadsToClose(p) - rest)
      {
        var topic :| topic in rest;
        CloseNextRead(topic, p, s, rest);
        rest := rest - {topic};
      }
    }

    /** One round of the fourth loop. */
    method StopNextTrack(topic: string, closeChannel: bool, ghost p: Peer, ghost s: Shared, ghost rest: set<string>)
      requires Valid() && topic in rest && rest <= TracksToStop(p).Keys
      requires (State(), bridge.view) == StopTracks(p, s, TracksToStop(p) - rest, closeChannel)
      modifies this`outboundMediaTracks, this`tracksInUse, bridge.repr
      ensures Valid() && bridge.repr == old(bridge.repr)
      ensures (State(), bridge.view) == StopTracks(p, s, TracksToStop(p) - (rest - {topic}), closeChannel)
    {
      StopTracksNext(p, s, rest, topic, closeChannel);
      var _ := UnsubscribeMediaTopic(topic, closeChannel);
    }

    /** The fourth loop: unsubscribe from unused media streams. */
    method StopUnusedTracks(closeChannel: bool) returns (stopped: set<string>)
      requires Valid()
      modifies this`outboundMediaTracks, this`tracksInUse, bridge.repr
      ensures Valid() && bridge.repr == old(bridge.repr) && stopped == TracksToStop(old(State())).Keys
      ensures (State(), bridge.view) ==
              StopTracks(old(State()), old(bridge.view), TracksToStop(old(State())), closeChannel)
    {
      ghost var p, s := State(), bridge.view;
      stopped := set t | t in outboundMediaTracks && t in tracksInUse && t !in reqReadSubs;
      var rest := stopped;
      StopTracksEnds(p, s, closeChannel);
      while rest != {}
        invariant Valid() && bridge.repr == old(bridge.repr) && rest <= stopped == TracksToStop(p).Keys
        invariant (State(), bridge.view) == StopTracks(p, s, TracksToStop(p) - rest, closeChannel)
      {
        var topic :| topic in rest;
        StopNextTrack(topic, closeChannel, p, s, rest);
        rest := rest - {topic};
      }
    }

    /** One round of the fifth loop. */
    method CloseNextWrite(topic: string, ghost p: Peer, ghost s: Shared, ghost rest: set<string>)
      requires Valid() && topic in rest && rest <= WritesToClose(p).Keys
      requires (State(), bridge.view) == CloseWrites(p, s, WritesToClose(p) - rest)
      modifies this`inboundDataChannels, bridge.repr
      ensures Valid() && bridge.repr == old(bridge.repr)
      ensures (State(), bridge.view) == CloseWrites(p, s, WritesToClose(p) - (rest - {topic}))
    {
      CloseWritesNext(p, s, rest, topic);
      var _ := UnsubscribeWriteDataTopic(topic);
    }

    /** The fifth loop: close unused write channels. */
    method CloseUnusedWrites() returns (closed: set<string>)
      requires Valid()
      modifies this`inboundDataChannels, bridge.repr
      ensures Valid() && bridge.repr == old(bridge.repr) && closed == WritesToClose(old(State())).Keys
      ensures (State(), bridge.view) == CloseWrites(old(State()), old(bridge.view), WritesToClose(old(State())))
    {
      ghost var p, s := State(), bridge.view;
      closed := set t | t in inboundDataChannels && t !in WriteTopics(reqWriteSubs);
      var rest := closed;
      CloseWritesEnds(p, s);
      while rest != {}
        invariant Valid() && bridge.repr == old(bridge.repr) && rest <= closed == WritesToClose(p).Keys
        invariant (State(), bridge.view) == CloseWrites(p, s, WritesToClose(p) - rest)
      {
        var topic :| topic in rest;
        CloseNextWrite(topic, p, s, rest);
        rest := rest - {topic};
      }
    }

    /** The opening loops. */
    method OpenRequestedAll(env: Env)
      returns (read: map<string, Option<nat>>, write: map<string, Option<nat>>, video: map<string, Option<nat>>)
      requires Valid()
      modifies this`nextChannelId, this`outboundDataChannels, this`inboundDataChannels, this`outboundMediaTracks
      modifies this`tracksInUse, this`negotiationNeeded, bridge.repr
      ensures Valid() && fresh(bridge.repr - old(bridge.repr))
      ensures (State(), bridge.view) == OpenAll(old(State()), old(bridge.view), env)
      ensures Listed(read, outboundDataChannels, DataTopics(reqReadSubs, env))
      ensures Listed(write, inboundDataChannels, WriteTopics(reqWriteSubs))
      ensures StreamsListed(video, outboundMediaTracks, MediaTopics(reqReadSubs, env))
    {
      read, video := OpenRequestedReads(env);
      WritesOpened(State(), bridge.view, reqWriteSubs, env);
      write := OpenRequestedWrites(env);
    }

    /** The closing loops; the reply tells what they closed beside what the opening loops listed. */
    method CloseUnused(closeTracks: bool, ghost env: Env, read: map<string, Option<nat>>,
                       write: map<string, Option<nat>>, video: map<string, Option<nat>>)
      returns (reply: Reply)
      requires Valid() && Listed(read, outboundDataChannels, DataTopics(reqReadSubs, env))
      requires Listed(write, inboundDataChannels, WriteTopics(reqWriteSubs))
      requires StreamsListed(video, outboundMediaTracks, MediaTopics(reqReadSubs, env))
      modifies this`outboundDataChannels, this`inboundDataChannels, this`outboundMediaTracks, this`tracksInUse,
               bridge.repr
      ensures Valid() && bridge.repr == old(bridge.repr)
      ensures (State(), bridge.view) == CloseAll(old(State()), old(bridge.view), closeTracks)
      ensures reply == ReplyOf(old(State()), env)
    {
      ReplyIs(State(), env, read, write, video);
      var unread := CloseUnusedReads();
      var stopped := StopUnusedTracks(closeTracks);
      var unwritten := CloseUnusedWrites();
      reply := Reply(read + Closed(unread), write + Closed(unwritten), video + Closed(stopped));
    }

    method Reconnect()
      requires Valid()
      modifies this`peerNeedsRestart, this`pc, this`outboundDataChannels, this`inboundDataChannels, bridge.repr
      ensures Valid() && bridge.repr == old(bridge.repr)
              && bridge.view == Created(old(bridge.view), Owner(Connection, id, ""))
      ensures State() == old(State()).(needsRestart := false, outbound := map[], inbound := map[],
              pc := Some(|old(bridge.view).created|))
    {
      peerNeedsRestart, pc := false, None;
      outboundDataChannels, inboundDataChannels := map[], map[];
      CreatePeerConnection();
    }

    /** The start of a pass. */
    method Restart(isReconnect: bool)
      requires Valid()
      modifies this`negotiationNeeded, this`peerNeedsRestart, this`pc, this`outboundDataChannels,
               this`inboundDataChannels
      modifies bridge.repr
      ensures Valid() && bridge.repr == old(bridge.repr)
      ensures State() == Restarted(old(State()), old(bridge.view), isReconnect).0
      ensures bridge.view == Restarted(old(State()), old(bridge.view), isReconnect).1
    {
      negotiationNeeded := isReconnect;
      if isReconnect {
        Reconnect();
      }
    }

    /** All loops. */
    method OpenAndClose(closeTracks: bool, env: Env) returns (reply: Reply)
      requires Valid()
      modifies this`nextChannelId, this`outboundDataChannels, this`inboundDataChannels, this`outboundMediaTracks
      modifies this`tracksInUse, this`negotiationNeeded, bridge.repr
      ensures Valid() && fresh(bridge.repr - old(bridge.repr))
      ensures var (p, s) := OpenAll(old(State()), old(bridge.view), env);
              (State(), bridge.view) == CloseAll(p, s, closeTracks) && reply == ReplyOf(p, env)
    {
      var read, write, video := OpenRequestedAll(env);
      reply := CloseUnused(closeTracks, env, read, write, video);
    }

    /** The part of `processSubscriptionsSync` that opens and closes. */
    method ReconcileChannels(isReconnect: bool, env: Env) returns (reply: Reply)
      requires Valid()
      modifies this`negotiationNeeded, this`peerNeedsRestart, this`pc, this`outboundDataChannels,
               this`inboundDataChannels
      modifies this`outboundMediaTracks, this`tracksInUse, this`nextChannelId, bridge.repr
      ensures Valid() && fresh(bridge.repr - old(bridge.repr))
      ensures (State(), bridge.view) == Reconciled(old(State()), old(bridge.view), isReconnect, env)
      ensures reply == ReconciledReply(old(State()), old(bridge.view), isReconnect, env)
    {
      Restart(isReconnect);
      reply := OpenAndClose(isReconnect || !isConnected, env);
    }

    /** What follows the loops, up to the wait for the peer's answer: an offer, or the clean-up. */
    method Finish(isReconnect: bool)
      modifies this`awaitingPeerReply, this`pc
      ensures State() == old(State()).(awaiting := isConnected && negotiationNeeded,
                                       pc := if !isConnected && !isReconnect then None else old(pc))
    {
      awaitingPeerReply := false;
      if isConnected && negotiationNeeded {
        awaitingPeerReply := true;
      }
      if !isConnected && !isReconnect {
        pc := None;
      }
    }

    /** `processSubscriptionsSync` up to the wait for the peer's answer. `types` are the topics that
        introspection has discovered. */
    method ProcessSubscriptionsSync(sioConnected: bool, pcLost: bool, types: map<string, string>,
                                    creatable: set<string>)
      returns (reply: Reply)
      requires Valid()
      modifies this, bridge.repr
      ensures Valid() && fresh(bridge.repr - old(bridge.repr))
      ensures var env := Env(sioConnected, pcLost, Kinds(types), creatable);
              (State(), bridge.view) == Pass(old(State()), old(bridge.view), env)
      ensures reply == PassReply(old(State()), old(bridge.view), Env(sioConnected, pcLost, Kinds(types), creatable))
    {
      var env := Env(sioConnected, pcLost, Kinds(types), creatable);
      var isReconnect := isConnected && sioConnected && (peerNeedsRestart || pc == None || pcLost);
      ghost var p, s := State(), bridge.view;
      reply := ReconcileChannels(isReconnect, env);
      Finish(isReconnect);
      PassFinishes(p, s, env);
    }

    /** `onDisconnected` up to the erasure from the connected peers. */
    method OnDisconnected(sioConnected: bool, pcLost: bool, types: map<string, string>, creatable: set<string>)
      requires Valid()
      modifies this, bridge.repr
      ensures Valid() && fresh(bridge.repr - old(bridge.repr))
      ensures var p := old(State()).(reqRead := [], reqWrite := [], connected := false);
              var env := Env(sioConnected, pcLost, Kinds(types), creatable);
              (State(), bridge.view) == Pass(p, old(bridge.view), env)
    {
      reqReadSubs, reqWriteSubs := [], [];
      isConnected := false;
      assert bridge.view == old(bridge.view);
      assert State() == old(State()).(reqRead := [], reqWrite := [], connected := false);
      var _ := ProcessSubscriptionsSync(sioConnected, pcLost, types, creatable);
    }

    // ----- requests -----

    ghost predicate RequestsValid()
      reads this
    {
      ReadsOnce(reqReadSubs) && WritesOnce(reqWriteSubs)
    }

    method AddReqReadSubscription(topic: string) returns (added: bool)
      requires RequestsValid()
      modifies this`reqReadSubs
      ensures RequestsValid() && reqReadSubs == WithRead(old(reqReadSubs), topic)
      ensures added <==> topic !in old(reqReadSubs)
    {
      AddReadAdds(reqReadSubs, topic);
      if topic in reqReadSubs {
        return false;
      }
      reqReadSubs := reqReadSubs + [topic];
      return true;
    }

    method RemoveReqReadSubscription(topic: string) returns (removed: bool)
      requires RequestsValid()
      modifies this`reqReadSubs
      ensures RequestsValid() && reqReadSubs == WithoutRead(old(reqReadSubs), topic)
      ensures removed <==> topic in old(reqReadSubs)
    {
      RemoveReadRemoves(reqReadSubs, topic);
      var pos := 0;
      while pos < |reqReadSubs| && reqReadSubs[pos] != topic
        invariant pos <= |reqReadSubs| && topic !in reqReadSubs[..pos]
      {
        pos := pos + 1;
      }
      WithoutReadAt(reqReadSubs, topic, pos);
      if pos == |reqReadSubs| {
        return false;
      }
      reqReadSubs := reqReadSubs[..pos] + reqReadSubs[pos + 1..];
      return true;
    }

    method AddReqWriteSubscription(topic: string, msgType: string) returns (added: bool)
      requires RequestsValid()
      modifies this`reqWriteSubs
      ensures RequestsValid() && reqWriteSubs == WithWrite(old(reqWriteSubs), topic, msgType)
      ensures added <==> WriteRequest(topic, msgType) !in old(reqWriteSubs)
    {
      ghost var before := reqWriteSubs;
      AddWriteAdds(before, topic, msgType);
      var i := 0;
      while i < |reqWriteSubs|
        invariant i <= |reqWriteSubs| && WritesOnce(reqWriteSubs)
        invariant forall k :: 0 <= k < i ==> reqWriteSubs[k].topic != topic
        invariant reqWriteSubs == before || reqWriteSubs == Purged(before, topic)
        invariant reqWriteSubs != before ==> WriteRequest(topic, msgType) !in before
        decreases |reqWriteSubs| - i
      {
        if reqWriteSubs[i].topic == topic {
          if reqWriteSubs[i].msgType == msgType {
            assert reqWriteSubs == before by {
              PurgedKeeps(before, topic);
              assert reqWriteSubs[i] in reqWriteSubs;
            }
            return false;
          }
          assert reqWriteSubs == before by {
            PurgedKeeps(before, topic);
            assert reqWriteSubs[i] in reqWriteSubs;
          }
          PurgedAt(before, topic, i);
          PurgedKeeps(before, topic);
          reqWriteSubs := reqWriteSubs[..i] + reqWriteSubs[i + 1..];
        } else {
          i := i + 1;
        }
      }
      PurgedAbsent(reqWriteSubs, topic);
      PurgedKeeps(before, topic);
      reqWriteSubs := reqWriteSubs + [WriteRequest(topic, msgType)];
      return true;
    }

    method RemoveReqWriteSubscription(topic: string) returns (removed: bool)
      requires RequestsValid()
      modifies this`reqWriteSubs
      ensures RequestsValid() && reqWriteSubs == Purged(old(reqWriteSubs), topic)
      ensures removed <==> topic in WriteTopics(old(reqWriteSubs))
    {
      PurgedKeeps(reqWriteSubs, topic);
      var i := 0;
      while i < |reqWriteSubs|
        invariant i <= |reqWriteSubs| && reqWriteSubs == old(reqWriteSubs)
        invariant forall k :: 0 <= k < i ==> reqWriteSubs[k].topic != topic
      {
        if reqWriteSubs[i].topic == topic {
          PurgedAt(reqWriteSubs, topic, i);
          reqWriteSubs := reqWriteSubs[..i] + reqWriteSubs[i + 1..];
          return true;
        }
        i := i + 1;
      }
      PurgedAbsent(reqWriteSubs, topic);
      return false;
    }
  }
}
