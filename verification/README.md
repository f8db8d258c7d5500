# phntm_bridge: verified model

A Dafny model of the pure logic of the ROS 2 to WebRTC bridge and of the Socket.IO client it vendors,
with proofs of what that logic keeps over every input, run and interleaving. `dafny verify dfyconfig.toml`
checks all of it.

| file | what it models |
|---|---|
| `SioMessage`, `Placeholders` | message trees, their split into JSON and binaries, and the rebuild |
| `SioPacket`, `SioStream`, `JsonCodec` | the packet encoding, the stream reassembler, and a codec that meets what is assumed of RapidJSON |
| `SioSocket`, `Wire` | the offline queue and ack table of a socket; the text of the frames, and the way from `emit` to the receiver |
| `SioClient`, `Retries` | the reconnect machine of the client, and that it retries |
| `Channels`, `TopicReaders`, `TopicWriters`, `Bridges` | readers, media readers and writers shared by all peers, and the channel index |
| `Reconcile`, `Requests`, `PeerUpdates`, `WrtcPeer` | one pass of subscription processing, its message, and the class that runs it |
| `Agreement`, `Peers`, `PeerRuns`, `Live` | what holds between peers and registries over every run |
| `Served` | what a peer gets for what it asks for |
| `Leaks`, `LeakFree`, `Reconnects` | the steps after which something stays registered for nobody, or a track outlives its connection |
| `ChannelIds`, `OpenIds` | the 16-bit ids of data channels |
| `OfferAnswer` | offer, reply and disconnect of one peer, interleaved |
| `NalUnits`, `VideoOutput`, `Sending` | Annex B splitting, keyframe gate, RTP clock |
| `IdlClosure`, `GraphDiff`, `Discovered`, `Endpoints`, `Introspector` | loading of interface definitions, what is discovered, and the change detector |
| `RosTypes`, `Marshalling`, `Applied`, `Responses` | generic service calls: ROS values to message trees and back, what a request applies, what a response tells |
| `Options`, `Arithmetic` | optional values; remainders |

What the source does step by step is a method or a class whose `ensures` ties it to a specification
function; what the source promises is proved about these functions, over all inputs and all runs.

Where the code does less than it seems to promise, the exact condition is proved:

- Attachments are only recognised when they are non-empty and start with byte 4, although the client
  speaks Engine.IO 4, which has no such byte. The stream round trip holds if and only if they do
  (`SioStream.StreamRoundTrip`).
- An attempt that fails inside `connect_impl`, for an invalid URI or proxy, never comes to `on_fail`: there is
  no retry, whatever the limit, and the client stays in `con_opening`, where it ignores every `connect`. The
  limit is exhausted and the client closed if and only if every attempt has a valid URI
  (`SioClient.EveryAttemptFails`, `SioClient.LimitReachedIff`; `SioClient.InvalidUriDeafens` is an example).
- The registries hold exactly what the connected peers have open if and only if no step of the run leaked
  (`LeakFree.ExactIffNoLeak`). A reconnect leaks every registered data channel of the peer, because it
  forgets them without deregistering; a peer that connects under an id in use leaks what it opens, because
  `emplace` does not store it and nobody can disconnect it. What leaked stays for ever
  (`PeerRuns.LeftForever`). `LeakFree.ReconnectLeaks` and `LeakFree.SecondPeerLeaks` are such runs. By the
  code a read channel for the heartbeat would leak when it is closed, but none ever opens: the name of a
  ROS topic starts with a slash (`LeakFree.OnlyReconnectsAndSecondPeersLeak`).
- A reconnect also keeps tracks of the connection that is gone (`Reconnects.ReconnectKeepsOldTracks`;
  `Reconnects.TrackOutlives` is such a run).
- Reports are ignored while the socket is down, and the opening makes up for them. While it is connected,
  what was last told is always the nodes as they are if and only if no query for topics failed right after
  nodes came or went (`GraphDiff.AlwaysToldIff`). When one did, what was told is outdated until a complete
  pass sees another change while the socket is connected, or the socket opens, and no longer
  (`GraphDiff.LostUntilTold`; `GraphDiff.LossToldLate` is an example).
- The comment "copy on no change" (src/introspection.cpp:318) does not hold: the texts are copied to a local
  copy (`GraphDiff.SecondPassIsSilent`).
- Errors inside nested objects of a service request are dropped, with the entries after them, and trees of
  another kind give zeros: an accepted request is applied as a whole if and only if it suits the types at
  every depth (`Applied.AppliedIff`).
- The gate that waits for a keyframe counts the frames sent in 16 bits, so it closes again at every 65536th
  (`Sending.PassesIff`).
- The 90 kHz conversion is exact from 0 to about 2.4 days of clock time and wraps around elsewhere
  (`VideoOutput.RtpExactIff`).
- The split of a video stream takes zero bytes at the end of a unit for part of the next start code
  (`NalUnits.AnnexBRoundTrip`).

## Model

| member | source | states |
|---|---|---|
| `Placeholders.ExtractionInvertible` | sioclient/internal/sio_packet.cpp:47-188 | For every tree, any buffer list before it and any buffers after it, rebuilding what `accept_message` produced gives the tree back if and only if no object in it maps `_placeholder` to true. |
| `Placeholders.PlaceholdersConsecutive` | sioclient/internal/sio_packet.cpp:21-129 | The placeholders are numbered consecutively in traversal order, from the number of buffers there were before. |
| `Placeholders.AcceptedAppends` | sioclient/internal/sio_packet.cpp:47-129 | Splitting a tree appends its binaries, in order, to the shared buffers and touches nothing before them. |
| `Placeholders.AcceptMessage` | sioclient/internal/sio_packet.cpp:81-129 | The recursive method over the shared `buffers` vector computes the JSON and the buffers of the specification. |
| `Placeholders.AcceptArray` | sioclient/internal/sio_packet.cpp:59-67 | The loop over an array: children in order, one buffer list for all of them. |
| `Placeholders.AcceptObject` | sioclient/internal/sio_packet.cpp:69-79 | The loop over an object: one member per entry, in map order, one buffer list for all of them. |
| `SioPacket.Packet.ParsePayload` | sioclient/internal/sio_packet.cpp:266-339 | Parsing a text frame sets exactly the type, namespace, id, message and pending count of the specification, or throws where `stoul` and `stoi` do. |
| `SioPacket.Packet.ParseAttachment` | sioclient/internal/sio_packet.cpp:246-264 | An attachment is appended and counted down; the last one rebuilds the message from all buffers. |
| `SioPacket.Packet.Accept` | sioclient/internal/sio_packet.cpp:341-392 | The header and text that a packet is written to, with the binary type chosen by its buffers. |
| `SioPacket.PacketManager.Encode` | sioclient/internal/sio_packet.cpp:436-466 | The frames handed out: the text frame, then the attachments in order. |
| `SioPacket.PacketManager.PutPayload` | sioclient/internal/sio_packet.cpp:468-509 | One frame: the packets delivered and the partial packet left, including binary frames without a header and headers that cut off a pending packet. |
| `SioPacket.PacketManager.Reset` | sioclient/internal/sio_packet.cpp:431-434 | The partial packet is dropped. |
| `SioStream.PacketRoundTrip` | sioclient/internal/sio_packet.cpp:231-509 | Whatever was pending before, the frames of a packet deliver that packet, once, and nothing else; with attachments they leave nothing pending, without they leave what was. |
| `SioStream.StreamRoundTrip` | sioclient/internal/sio_packet.cpp:231-509 | Feeding the frames of any list of packets one by one delivers exactly those packets, in order, and leaves none pending, if and only if every attachment passes `is_binary_message` (non-empty, first byte 4). |
| `SioStream.ReassemblyIsolated` | sioclient/internal/sio_packet.cpp:468-509 | Text frames other than binary headers that arrive between a header and its attachments are delivered at once; the pending packet is delivered at its last attachment and made of its own attachments only. |
| `SioStream.ReassemblyPending` | sioclient/internal/sio_packet.cpp:468-509 | Before the last attachment has come: such text frames are delivered at once and leave the pending packet as it is, and attachments are collected in order. |
| `SioStream.ReceiveBinaries` | sioclient/internal/sio_packet.cpp:246-264 | Whatever frames arrive, a delivered message holds only binaries that pass `is_binary_message`: the reason for the only-if of the round trip. |
| `Wire.FramesOf` | sioclient/internal/sio_packet.cpp:341-466 | The frames of any packet that may be sent, character by character: "42" for an event and "45" for one with binaries, "43" and "46" for acks, "40", "41" and "44" for connect, disconnect and error; the number of attachments and a dash, the namespace and a comma, the id, the JSON text; then the attachments. |
| `Wire.DeliveredAs` | sioclient/internal/sio_packet.cpp:266-509 | The receiver is given the type that the second digit on the wire shows, with the message, namespace and id of the packet. |
| `Wire.BinaryBecomes` | sioclient/internal/sio_packet.cpp:47-57 | In the JSON text a binary is {"_placeholder": true, "num": its number}. |
| `Wire.StrayAttachments` | sioclient/internal/sio_packet.cpp:484-498 | Attachments that no header announced are ignored, however many come. |
| `JsonCodec.CodecIsLawful` | sioclient/internal/sio_packet.cpp:266-392 | What is assumed of RapidJSON (parsing undoes writing of trees with 64-bit integers and finite doubles; arrays, objects and strings start with their bracket or quote) can be met: a concrete writer and parser do. |
| `SioSocket.FifoLossless` | sioclient/sio_socket.cpp:301-372 | In every run until `on_close`, with the open listener free to emit inside `on_connected`, the packets handed to the client followed by the queued ones are exactly those accepted, in call order; the queue is empty whenever the socket is connected. |
| `SioSocket.AllSentOnceConnected` | sioclient/sio_socket.cpp:347-372 | So whatever a fresh socket accepted has all been sent once it is connected. |
| `SioSocket.EmittedIsDelivered` | sioclient/sio_socket.cpp:301-372 | A receiver of all frames a fresh socket sent, connect packets included, is given exactly the accepted packets beside the connect packets, in order, once the socket is connected: if and only if their attachments are binary messages. |
| `SioSocket.ClosedIsFinal` | sioclient/sio_socket.cpp:374-394 | After `on_close` nothing is accepted, sent, queued or called back. |
| `Wire.ClosedFromBelow` | sioclient/sio_socket.cpp:374-394 | From any state, once `on_close` was called nothing more is accepted, sent or called back in any run. |
| `SioSocket.AcksFireOnce` | sioclient/sio_socket.cpp:504-517 | Over every run the ack ids handed out are distinct, and each callback is waiting or has fired, never both, and fires once. |
| `Wire.EventArrives` | sioclient/sio_socket.cpp:301-318 | From `emit` to the receiver, in any run of a fresh socket that ends connected: in its place the receiver is given an event of the socket's namespace whose message is the array of the name and the arguments, a binary event if one of them holds a binary, with the next free id if an ack is waited for and none if not. |
| `Wire.AckArrives` | sioclient/sio_socket.cpp:498-502 | From `ack` to the receiver: an ack of the id that is acknowledged, with the array of the arguments. |
| `Wire.DisconnectWaits` | sioclient/sio_socket.cpp:401-412 | After a disconnect, in every run up to the next connect, nothing but connect packets goes to the client and what is accepted waits in the queue, in order. |
| `Wire.OpenPresents` | sioclient/sio_socket.cpp:320-399 | On opening, a connect packet with the authentication goes to the client at once, past the queue. |
| `Wire.CloseTakesLeave` | sioclient/sio_socket.cpp:331-345 | `close` of a connected socket sends what is queued and then one disconnect packet; of one that is not connected it sends nothing. |
| `Wire.EmittedFires` | sioclient/sio_socket.cpp:504-517 | In every run the callback of an emitted event is called with the first ack of the event's id. |
| `SioSocket.Socket.EmitEvent` | sioclient/sio_socket.cpp:301-318 | One emit: the id drawn, the callback registered, the packet sent or queued. |
| `SioSocket.Socket.OnConnected` | sioclient/sio_socket.cpp:347-372 | The open listener, then the flush of the queue, in the source's order and with the packets the listener adds. |
| `SioSocket.Socket.OnDisconnect` | sioclient/sio_socket.cpp:401-412 | The flag falls and the queue is emptied; the acks stay. (By `FifoLossless` a connected socket has nothing queued, so nothing is lost.) |
| `SioSocket.Socket.OnClose` | sioclient/sio_socket.cpp:374-394 | The client is let go, the flag falls and the queue is emptied; the acks stay. |
| `SioSocket.Socket.OnSocketioAck` | sioclient/sio_socket.cpp:504-517 | A callback is taken out of the table and called; an unknown id is ignored. |
| `SioSocket.Socket.SendOne` | sioclient/sio_socket.cpp:537-561 | Send now, flushing first, or queue. |
| `SioClient.LimitKept` | sioclient/internal/sio_client_impl.cpp:398-495 | With a fixed limit, in every run: never more reconnects in a row than the limit, a timer only waits for one that is allowed, and the delay never exceeds its maximum, whatever the order of setter calls. |
| `SioClient.ReconnectsAreOwed` | sioclient/internal/sio_client_impl.cpp:348-495 | In every run each reconnect, and a timer that waits for one, is owed to a failed attempt or a lost connection of its own: there are never more reconnects than those, but for a timer armed at the start. |
| `SioClient.CloseStopsReconnecting` | sioclient/internal/sio_client_impl.cpp:162-168 | After `close` no attempt starts and no timer is armed, in every run up to the next `connect`. |
| `SioClient.EveryAttemptFails` | sioclient/internal/sio_client_impl.cpp:253-423 | After a `connect`, in any order of events in which no attempt succeeds and nobody calls `connect` or `close`: the fail listener has been called once if it is over (nothing under way, no timer) and not before. With a valid URI in every attempt it is over exactly after as many starts and failures as the limit asks for, with as many reconnects as the limit. It ends in `con_closed` if and only if every attempt had a valid URI; otherwise it ends in `con_opening`, where any further `connect` does nothing. |
| `SioClient.LimitReachedIff` | sioclient/internal/sio_client_impl.cpp:253-363 | With one URI for all attempts: once it is over there were as many reconnects as the limit if and only if the URI is valid or the limit is 0; with an invalid one there was none. |
| `SioClient.InvalidUriDeafens` | sioclient/internal/sio_client_impl.cpp:85-130 | An example: after a `connect` to an invalid URI one to a valid URI makes no attempt, and no timer waits, whatever the limit. |
| `SioClient.SessionsAreIndependent` | sioclient/internal/sio_client_impl.cpp:348-363 | In every run the packets delivered are those that each connection's payloads give on their own: no packet mixes connections. |
| `SioClient.BackOffBounded` | sioclient/internal/sio_client_impl.cpp:365-370 | The delay lies between the two settings, never falls as failures add up, and is constant from 32 failures on. |
| `Retries.NextDelayIs` | sioclient/internal/sio_client_impl.cpp:365-370 | The delay in whole numbers: delay * 3^n / 2^n rounded down, where n counts at most 32 failures, and never more than the maximum. |
| `Retries.SettersInTurn` | sioclient/internal/sio_client_impl.h:126-128 | Both setters in either order: the one called last is obeyed, so the order matters exactly when the delay is asked to be above the maximum. |
| `Retries.ClosedIsRetried` | sioclient/internal/sio_client_impl.cpp:398-495 | In every run from a `connect` without `close` and without a normal close, in any order of events: a client in `con_closed` with attempts left has its timer armed. |
| `Retries.LossIsRetried` | sioclient/internal/sio_client_impl.cpp:442-495 | After any such run a lost connection is told to the reconnect listener with its delay and, when the timer fires, attempted once, with the count one higher; with no attempt left it is told as a drop and nothing follows. |
| `Retries.OpeningGivesBack` | sioclient/internal/sio_client_impl.cpp:425-440 | A connection that opens gives all attempts back: when it is lost later and no attempt succeeds, it is over exactly after a start and a failure for each attempt of the limit, with as many reconnects and one call of the fail listener. While it is open a `connect` does nothing. |
| `Retries.CloseIsToldNormal` | sioclient/internal/sio_client_impl.cpp:442-495 | After `close` the next close of the connection is told as a normal one, whatever its code. |
| `SioClient.ClientImpl.SetReconnectDelay` | sioclient/internal/sio_client_impl.h:126-127 | The state after the setter: the delay, and the maximum raised to it if it was smaller. |
| `SioClient.ClientImpl.SetReconnectDelayMax` | sioclient/internal/sio_client_impl.h:128 | The state after the setter: the maximum, and the delay lowered to it if it was larger. |
| `SioClient.ClientImpl.ConnectTo` | sioclient/internal/sio_client_impl.cpp:85-130 | The state after `connect` in each of its branches. |
| `SioClient.ClientImpl.CloseClient` | sioclient/internal/sio_client_impl.cpp:162-168 | The state after `close`. |
| `SioClient.ClientImpl.HandleFail` | sioclient/internal/sio_client_impl.cpp:398-423 | The state after a failed attempt, in each of its branches. |
| `SioClient.ClientImpl.HandleClose` | sioclient/internal/sio_client_impl.cpp:442-495 | The state after a lost connection, in each of its branches. |
| `SioClient.ClientImpl.TimeoutReconnect` | sioclient/internal/sio_client_impl.cpp:348-363 | The state after the timer fires. |
| `Channels.WithoutSplits` | src/topic_reader_data.cpp:92-113 | Removing a channel takes out its first occurrence and keeps the others in order. |
| `TopicReaders.WithOutputAdds` | src/topic_reader_data.cpp:50-73 | Adding an output adds exactly that channel to that topic, once. |
| `TopicReaders.DropOutputsRemoves` | src/topic_reader_data.cpp:92-113 | Dropping a channel of each of some topics removes exactly these; a reader left without outputs is gone. |
| `TopicReaders.TopicReaderData.AddOutput` | src/topic_reader_data.cpp:50-73 | The output is appended unless it is there; the subscriber is created then only. |
| `TopicReaders.TopicReaderData.RemoveOutput` | src/topic_reader_data.cpp:92-113 | The output is removed, the last one stops the subscriber, and the result says that none is left. |
| `TopicReaders.ReaderRegistry.Subscribe` | src/wrtc_peer.cpp:653-654 | Get or create the reader, then add the output. |
| `TopicReaders.ReaderRegistry.Unsubscribe` | src/wrtc_peer.cpp:699-709 | Remove the output, and destroy a reader that has none left. |
| `TopicWriters.WithInputAdds` | src/topic_writer_data.cpp:48-68 | Adding a new channel, or again one the writer has, keeps the index exact although `emplace` does not overwrite. |
| `TopicWriters.DropInputsRemoves` | src/topic_writer_data.cpp:70-96 | Removing inputs removes exactly these from the writers and from the index. |
| `TopicWriters.WriterRegistry.GetForDC` | src/topic_writer_data.cpp:31-37 | A writer is found if and only if the channel is an input of some writer, and then it is that one. |
| `TopicWriters.WriterRegistry.OnData` | src/topic_writer_data.cpp:98-130 | A binary message is published on the topic of the writer that has the channel as input, if it has a publisher; anything else is not handled. |
| `TopicWriters.WriterRegistry.AddInput` | src/topic_writer_data.cpp:48-68 | The objects and the pointer index change as specified. |
| `TopicWriters.WriterRegistry.RemoveInput` | src/topic_writer_data.cpp:70-96 | The objects and the pointer index change as specified; the writer stays registered. |
| `Reconcile.PassReconciles` | src/wrtc_peer.cpp:341-436 | After any pass the write channels are exactly the requested topics; the read channels exactly the requested topics discovered as data, or open before unless the pass is a reconnect; the tracks in use exactly the requested topics discovered as video or in use before. |
| `Reconcile.NothingReplaced` | src/wrtc_peer.cpp:541-597 | What was open and still is, is the same channel; no pass replaces a track, no pass but a reconnect replaces a channel. |
| `Reconcile.NegotiationIff` | src/wrtc_peer.cpp:335-446 | Negotiation is asked for if and only if the pass is a reconnect or left a channel or track that was not there. |
| `Reconcile.PassRequests` | src/wrtc_peer.cpp:335-489 | A pass changes no request; exactly a disconnected peer has no peer connection after it. |
| `Agreement.SecondPassIsIdle` | src/wrtc_peer.cpp:335-436 | A second pass, also one after a reconnect, that finds the requests and the kinds of the requested topics unchanged and is no reconnect itself changes nothing at all, in the peer or in any registry, and asks for no negotiation, whatever else it observes. |
| `Agreement.PassKeeps` | src/wrtc_peer.cpp:335-436 | A pass keeps the agreement between the peer and the registries, gives up without deregistering exactly the channels it forgets, and changes registrations of its own channels only. |
| `Agreement.GoneIsIdle` | src/wrtc_peer.cpp:335-489 | A pass of a peer that has gone, with nothing open, changes nothing that is shared, whatever topics it observes. |
| `Requests.AddReadAdds` | src/wrtc_peer.cpp:149-156 | A requested topic is listed once. |
| `Requests.RemoveReadRemoves` | src/wrtc_peer.cpp:158-166 | Removing a request removes that topic and nothing else. |
| `Requests.AddWriteAdds` | src/wrtc_peer.cpp:168-185 | The list asks for the topic with the new type, once, and otherwise for what it did before. |
| `Requests.RemoveWriteRemoves` | src/wrtc_peer.cpp:187-199 | Removing a write request removes that topic and nothing else. |
| `PeerUpdates.ClientKnowsChannels` | src/wrtc_peer.cpp:360-435 | A client that knew the ids of the open data channels (after a reconnect: none) knows them again after reading the message of the pass, removed entries included. |
| `PeerUpdates.ClientKnowsStreams` | src/wrtc_peer.cpp:360-417 | The same for the streams in use, reconnects included. |
| `Served.ChannelForType` | src/wrtc_peer.cpp:335-436 | After any pass, from the raw types of the discovered topics: a topic is shown on a track exactly when it is requested and has type sensor_msgs/msg/Image, sensor_msgs/msg/CompressedImage or ffmpeg_image_transport_msgs/msg/FFMPEGPacket, or was shown before; it has a read channel exactly when it is requested and has any other type, or had a channel before and the pass is no reconnect. A topic without a type opens nothing. |
| `Served.ReconnectsWhen` | src/wrtc_peer.cpp:341-370 | A pass gives a connected peer a new peer connection exactly when Socket.IO is connected and the peer asked for a restart, has no connection or lost it; the peer is waited for exactly when negotiation was needed. |
| `Served.RestartsOnce` | src/wrtc_peer.cpp:364-370 | After a pass with Socket.IO connected, the next one is a reconnect only if the connection was lost again. |
| `Served.ConnectIsServed` | src/wrtc_peer.cpp:75-130 | In every run a peer that connects under a free id is found under it, with a connection of its own, nothing open and exactly the requests it came with. |
| `Served.ReadIsServed` | src/wrtc_peer.cpp:372-386 | In every run, after a request to read and a pass that finds the topic discovered, the peer has a track that the media reader of the topic feeds, or a channel that its reader feeds, by the type of the topic. |
| `Served.ReadIsDropped` | src/wrtc_peer.cpp:397-417 | In every run, after a request to read no longer and a pass, channel and track are closed. |
| `Served.WriteIsServed` | src/wrtc_peer.cpp:388-395 | In every run, after a request to write and a pass, the peer has a channel that feeds the writer of the topic, but for the heartbeat. |
| `Served.WriteIsDropped` | src/wrtc_peer.cpp:419-436 | In every run, after a request to write no longer and a pass, the channel is closed. |
| `Served.FailureIsServed` | src/wrtc_peer.cpp:132-140 | In every run, after a peer told that its connection failed, the next pass with Socket.IO connected makes a new one. |
| `Served.DisconnectIsFinal` | src/wrtc_peer.cpp:201-209 | In every run a peer that disconnects is no longer found and its object is gone. |
| `PeerRuns.RunKeeps` | src/wrtc_peer.cpp:75-489 | The registries and all peers agree after every run of connects, requests, passes and disconnects of any number of peers, also of those that connect under an id in use. |
| `PeerRuns.RegisteredExactly` | src/topic_reader_data.cpp:14-113 | In every run the outputs of readers are exactly the read channels open and those given up, never both; the inputs of writers likewise, but for open heartbeat channels. |
| `PeerRuns.LeftForever` | src/wrtc_peer.cpp:364-370 | What is given up once stays given up in every later run. |
| `PeerRuns.ReaderWhileRead` | src/wrtc_peer.cpp:696-714 | In every run a reader exists exactly while some peer object reads its topic or since one gave a channel for it up: the last removal destroys it, and one given up keeps it for ever. |
| `PeerRuns.MediaOutputsAreTheUnion` | src/topic_reader_h264.cpp:74-97 | In every run, reconnects included, the outputs of a media reader are exactly the tracks in use of the peer objects. |
| `PeerRuns.WriterIndexIsExact` | src/topic_writer_data.cpp:31-96 | In every run, reconnects included, the index finds a writer exactly for the channels among its inputs, no channel has two writers, and every open write channel but the heartbeat's is found. |
| `Live.FedAndPublishing` | src/topic_writer_data.cpp:48-96 | In every run media readers have their subscriber. When all subscribers and publishers that were asked for could be created, every reader has its subscriber, and a writer has its publisher exactly while it has inputs. |
| `LeakFree.ExactIffNoLeak` | src/wrtc_peer.cpp:87-436 | In every run the outputs of readers, the inputs of writers and the outputs of media readers are exactly what the peers in `connected_peers` have open, if and only if no step leaked: no reconnect of a peer with such a channel open, no pass that opens one for a peer that connected under an id in use, no read channel for the heartbeat closed. |
| `LeakFree.NobodyLeft` | src/wrtc_peer.cpp:201-219 | When nobody is in `connected_peers` there is no reader, no media reader and no writer with inputs or a publisher, each if and only if no step leaked. |
| `LeakFree.ReconnectLeaks` | src/wrtc_peer.cpp:364-370 | A run with a leak: a peer reads a topic, its connection fails, it reconnects and goes; nobody is connected and the reader is still there. |
| `LeakFree.SecondPeerLeaks` | src/wrtc_peer.cpp:87-94 | Another: a second peer connects under an id in use and reads a topic, and the first one goes; nobody is connected and the reader is still there. |
| `LeakFree.OnlyReconnectsAndSecondPeersLeak` | src/wrtc_peer.cpp:364-436 | When the topics observed have names of ROS, which start with a slash, no read channel for the heartbeat opens in any run, and only a reconnect or a pass for a peer that connected under an id in use leaks. |
| `ChannelIds.IdsReused` | include/phntm_bridge/wrtc_peer.hpp:57 | Two data channels a peer ever opened share an id if and only if a multiple of 65536 opens lies between them; over 65535 opens no id repeats and none is 0. |
| `OpenIds.OpenIdsDistinct` | src/wrtc_peer.cpp:541-597 | In every run the data channels open at a peer, in both directions, have different ids, up to 65535 opens. |
| `OpenIds.IdsNeverReused` | src/wrtc_peer.cpp:541-597 | A channel open after a run and another one open after the same run or a longer one, at the same peer and in either direction, have the same id if and only if a multiple of 65536 opens lies between them: so up to 65535 opens no id is ever used again. |
| `Reconnects.ReconnectKeepsOldTracks` | src/wrtc_peer.cpp:364-417 | In every run, after a reconnect every track belongs to the new peer connection if and only if every track before was in use and no longer requested: all others are kept although their connection is gone. |
| `Reconnects.TrackOutlives` | src/wrtc_peer.cpp:364-417 | Such a run: a peer watches a topic, its connection fails and it reconnects; the track is in use and belongs to the connection that is gone. |
| `WrtcPeer.WRTCPeer.ProcessSubscriptionsSync` | src/wrtc_peer.cpp:335-481 | The whole pass over the objects, five loops and shared registries, does to peer and registries exactly what `Reconcile.Pass` says, and builds its message. |
| `WrtcPeer.WRTCPeer.OpenRequestedReads` | src/wrtc_peer.cpp:372-386 | The first loop. |
| `WrtcPeer.WRTCPeer.OpenRequestedWrites` | src/wrtc_peer.cpp:388-395 | The second loop. |
| `WrtcPeer.WRTCPeer.CloseUnusedReads` | src/wrtc_peer.cpp:397-406 | The third loop, in whatever order it meets the channels. |
| `WrtcPeer.WRTCPeer.StopUnusedTracks` | src/wrtc_peer.cpp:408-417 | The fourth loop. |
| `WrtcPeer.WRTCPeer.CloseUnusedWrites` | src/wrtc_peer.cpp:419-436 | The fifth loop. |
| `WrtcPeer.WRTCPeer.SubscribeReadDataTopic` | src/wrtc_peer.cpp:637-664 | The open channel or a new one, registered once. |
| `WrtcPeer.WRTCPeer.SubscribeWriteDataTopic` | src/wrtc_peer.cpp:666-694 | The same for writing; the heartbeat channel gets no writer. |
| `WrtcPeer.WRTCPeer.SubscribeMediaTopic` | src/wrtc_peer.cpp:734-771 | A track is used again or opened, and registered. |
| `WrtcPeer.WRTCPeer.UnsubscribeReadDataTopic` | src/wrtc_peer.cpp:696-714 | Deregistered, unless it is the heartbeat, and closed. |
| `WrtcPeer.WRTCPeer.UnsubscribeWriteDataTopic` | src/wrtc_peer.cpp:716-732 | Deregistered, unless it is the heartbeat, and closed. |
| `WrtcPeer.WRTCPeer.UnsubscribeMediaTopic` | src/wrtc_peer.cpp:773-802 | Deregistered, and kept paused or closed. |
| `WrtcPeer.WRTCPeer.OpenDataChannelForTopic` | src/wrtc_peer.cpp:541-597 | The next id of the 16-bit counter, recorded for the direction. |
| `WrtcPeer.WRTCPeer.OnDisconnected` | src/wrtc_peer.cpp:201-209 | The requests are cleared and the last pass is made. |
| `WrtcPeer.WRTCPeer.AddReqReadSubscription` | src/wrtc_peer.cpp:149-156 | The list is that of the specification; the result says whether the topic was new. |
| `WrtcPeer.WRTCPeer.AddReqWriteSubscription` | src/wrtc_peer.cpp:168-185 | The loop that erases entries of another type ends in the list of the specification. |
| `WrtcPeer.WRTCPeer.RemoveReqWriteSubscription` | src/wrtc_peer.cpp:187-199 | The loop ends in the list of the specification. |
| `OfferAnswer.OfferSafety` | src/wrtc_peer.cpp:438-538 | Under every interleaving of queued passes, replies and a disconnect: a new offer is made only when a reply has ended the wait of every offer before, and a connected peer always has a peer connection. |
| `OfferAnswer.PassOffersAndWaits` | src/wrtc_peer.cpp:438-481 | The pass of a connected peer makes an offer exactly when it is a reconnect or left a channel or track that was not there; without an offer it ends at once, with one it waits and ends with the reply. |
| `OfferAnswer.AskIsServed` | src/wrtc_peer.cpp:335-436 | In a session a request is served by the next pass that takes the mutex: its loops open or close what was asked for, and after a failure it is a reconnect. |
| `OfferAnswer.NothingAfterDisconnect` | src/wrtc_peer.cpp:201-209 | Once `onDisconnected` is over, whatever passes still run: no peer connection, no data channel, no track in use. |
| `OfferAnswer.DisconnectCompletes` | src/wrtc_peer.cpp:335-489 | `onDisconnected` is never held up, whatever the schedule: it is over exactly when the passes have made the steps due at its start and five for each queued pass that got the mutex before it, none of them a reply; and until then one of these steps can be made. |
| `NalUnits.SplitNalUnits` | src/topic_reader_h264.cpp:111-133 | The scan over the array, every access in bounds, computes the units of the specification. |
| `NalUnits.CutsInOrder` | src/topic_reader_h264.cpp:111-133 | On arbitrary bytes the units are ordered disjoint slices. |
| `NalUnits.CutsAreCodeFree` | src/topic_reader_h264.cpp:111-133 | On arbitrary bytes no unit contains a start code. |
| `NalUnits.SplitOfStream` | src/topic_reader_h264.cpp:111-133 | Units without start codes, joined by any mix of 3- and 4-byte start codes, come back trimmed of what belongs to the next code. |
| `NalUnits.AnnexBRoundTrip` | src/topic_reader_h264.cpp:111-133 | They come back unchanged if and only if no unit contains a start code and nothing is trimmed. |
| `VideoOutput.FirstSentIsKeyframe` | src/topic_reader_h264.cpp:196-233 | Under every interleaving of producer and worker, from a fresh output on, the first frame sent is a keyframe; until then only keyframes are queued. |
| `Sending.PassesIff` | src/topic_reader_h264.cpp:197-217 | In every run an offered frame passes exactly when the output runs, the peer is ready, the track is open, and the frame is a keyframe or the number of frames sent is not a multiple of 65536. |
| `Sending.NoneDropped` | src/topic_reader_h264.cpp:348-447 | In every run without removal or stop no frame is dropped, and the front of the queue is the next one sent. |
| `VideoOutput.ArrivalOrder` | src/topic_reader_h264.cpp:348-453 | The frames dropped, failed or sent, the one being sent and the queued ones are exactly those pushed, in order. |
| `VideoOutput.TimestampsKeepDistance` | src/topic_reader_h264.cpp:369-397 | Under every interleaving of producer and worker: two frames that were sent, when the source only advanced from the one to the other (else the clock is anchored anew), have 32-bit timestamps that differ by exactly the difference of their source timestamps modulo 2^32. |
| `Sending.RemovedSendsNoMore` | src/topic_reader_h264.cpp:348-367 | After an output is removed or stopped, in every run, nothing is sent but the frame the worker has in hand. |
| `Sending.AnchorStamp` | src/topic_reader_h264.cpp:369-397 | The first frame, one that goes back in time and one after a frame at 0 are stamped with the time at which the worker took them, counted from the base of the peer, in 32 bits. |
| `VideoOutput.RtpExactIff` | src/lib.cpp:146-155 | The conversion to the 90 kHz clock is exact if and only if the time is between 0 and 204963823041217 nanoseconds, for every 32-bit second count, negative ones included. |
| `VideoOutput.Output.OfferFrame` | src/topic_reader_h264.cpp:197-217 | The checks of the producer, in order. |
| `VideoOutput.Output.PopFrame` | src/topic_reader_h264.cpp:356-397 | The worker's pop and the clock arithmetic in 64 bits. |
| `VideoOutput.Output.FinishFrame` | src/topic_reader_h264.cpp:397-447 | The count of sent frames wraps at 16 bits. |
| `IdlClosure.ClosureIsExact` | src/introspection.cpp:494-545 | From a closed set, a call leaves a closed set: the old one and exactly what the type reaches by includes through types that can be loaded and are not blacklisted. |
| `IdlClosure.RunIsExact` | src/introspection.cpp:494-545 | After any calls in a row from nothing: exactly what one of the types reaches. |
| `IdlClosure.IdlStore.CollectIDLs` | src/introspection.cpp:494-545 | Terminates on any include graph, cycles included; the result is false exactly when nothing changed. |
| `GraphDiff.StoredIsObserved` | src/introspection.cpp:172-339 | After a complete pass the nodes are those observed, and each publishes and subscribes to exactly what was observed of it. |
| `Discovered.TopicKnownIff` | src/introspection.cpp:161-188 | After a complete pass, told by the observation alone: a topic is known exactly when it was observed and was known before or neither its name nor its type is blacklisted; it keeps the type it was discovered with. |
| `Discovered.PublishesIff` | src/introspection.cpp:172-215 | A node publishes a topic exactly when the topic was observed, neither its name nor its type is blacklisted, its publishers could be queried, and the node is among them; with the observed type and the profiles of the node's publishers in order. |
| `Discovered.SubscribesIff` | src/introspection.cpp:217-243 | The same for subscriptions, which are not looked at when the query for publishers fails. |
| `Discovered.ChangedAreChecked` | src/introspection.cpp:339-349 | When the subscriptions of a node changed, every one is told what the QoS check finds. |
| `Discovered.ServesIff` | src/introspection.cpp:364-393 | A node has the services it had and those observed of which neither the name nor the type is blacklisted, with the type observed last; a new node has the observed namespace. |
| `GraphDiff.SilentIffSame` | src/introspection.cpp:246-402 | A complete pass makes a report if and only if the topics or the nodes changed, QoS texts aside; and what was told changes if and only if the socket is connected as well. |
| `GraphDiff.AlwaysToldIff` | src/introspection.cpp:80-403 | Over any run of passes, openings and closings of the socket, from a new bridge or any that has told what it knows: whenever the socket is connected what was last told is the nodes as they are, QoS texts aside, if and only if no pass lost the flag for nodes while it was connected. |
| `GraphDiff.NothingToldWhileDown` | src/sio.cpp:98-103 | From a socket that is down, as long as it does not open nothing is told in any run, whatever passes see. |
| `GraphDiff.RunCurrentIff` | src/introspection.cpp:80-403 | From any graph, over any run that loses no flag while connected and ends connected: the last report told tells the nodes as they are at the end, QoS texts aside, if and only if it did at the start, or the socket opened, or some complete pass saw the nodes or topics change while the socket was connected. |
| `GraphDiff.LostUntilTold` | src/introspection.cpp:151-159 | So after a lost flag the report is outdated until one of these happens, and no longer. |
| `GraphDiff.LossToldLate` | src/introspection.cpp:151-159 | An example: a node goes while the query for topics fails and all others stay; however often that is observed afterwards the node is still told to be there, until other nodes are observed or the socket opens. |
| `GraphDiff.SecondPassIsSilent` | src/introspection.cpp:246-339 | Observing the same again makes no report, whatever the QoS checks find, but drops the texts of the checks from the stored subscriptions. |
| `Introspector.Introspection.RunIntrospection` | src/introspection.cpp:80-403 | The pass over the stored maps, with its report through `emit`, does exactly what `GraphDiff.Pass` says, socket up or down. |
| `Introspector.BridgeSocket.Emit` | src/sio.cpp:98-108 | A report is handed to the client when the socket is connected, and ignored otherwise. |
| `Introspector.BridgeSocket.OnSocketOpen` | src/sio.cpp:135-140 | The flag rises before the report, so the opening tells the nodes as they are. |
| `Introspector.BridgeSocket.OnDisconnected` | src/sio.cpp:142-147 | The flag falls and nothing else that reports depend on changes. |
| `Introspector.PublishersChanged` | src/introspection.cpp:253-286 | The two loops and the comparison of profiles raise the flag exactly when the maps differ. |
| `Introspector.SubscribersChanged` | src/introspection.cpp:288-323 | The same for subscriptions, without their texts. |
| `Introspector.CollectEndpoints` | src/introspection.cpp:190-243 | The loops over topics and endpoints collect, for every known node, exactly what is to be seen of it, in order. |
| `Introspector.UpdateNodes` | src/introspection.cpp:121-149 | The erasing and the adding loop leave the observed nodes; the flag says whether the set changed. |
| `Introspector.UpdateTopics` | src/introspection.cpp:161-188 | The same for topics, which keep the type they were discovered with. |
| `Introspector.UpdateServices` | src/introspection.cpp:364-393 | Services are added or retyped, never removed; the flag says whether anything changed. |
| `Marshalling.MarshallingRoundTrip` | src/generic_services.cpp:494-567 | For every type with distinct field names and dynamic arrays, nested to any depth, and every value: mapping the value to a message tree succeeds, and mapping the tree into any message of the type gives back the value. |
| `Marshalling.BuildersAgree` | src/generic_services.cpp:764-793 | The two ways of building a nested object give the same tree, or the same error, for every type and value. |
| `Responses.ResponseTells` | src/generic_services.cpp:865-884 | For every type and value, nested to any depth: the tree the caller is sent has exactly one entry for each member, which tells the very value of the field; an unsigned integer from 2^63 on is told minus 2^64. |
| `Marshalling.AcceptedIff` | src/generic_services.cpp:494-567 | A request is accepted if and only if it is null or an object whose every key names a member that takes its value: arrays for arrays, objects for messages. What is inside nested objects does not matter. |
| `Applied.EntryApplied` | src/generic_services.cpp:509-564 | In one object, at any depth, an entry is mapped if and only if no entry before it failed; otherwise its member keeps its value. |
| `Applied.AppliedIff` | src/generic_services.cpp:494-567 | After a request every member that the tree names, at any depth, holds the very value of the tree if and only if the tree suits the types at every depth: trees of its kinds, integers in range, no other key. |
| `Applied.AcceptedAndDropped` | src/generic_services.cpp:459-480 | An example of what is lost without an error: {p: {bad: 1, x: 5}} is accepted and x keeps its value. |
| `Responses.CastWraps` | src/generic_services.cpp:261-428 | An integer out of range is taken modulo the width of its field, into its range. |
| `Responses.OtherKindGivesZero` | src/generic_services.cpp:261-456 | An entry of another kind than its primitive field leaves the zero of the field. |
| `Responses.FirstErrorTold` | src/generic_services.cpp:494-567 | The error of a request is that of its first entry that is not taken: unknown key, no array for an array, no object for a message, or unsupported type. |
| `Responses.NoObjectChangesNothing` | src/generic_services.cpp:494-508 | A null request is accepted, any other that is no object is refused; neither changes a field. |
| `Marshalling.EntriesRestore` | src/generic_services.cpp:509-564 | Entries that restore their members do so in any order of members, and leave other fields alone. |
| `RosTypes.CastBack` | src/generic_services.cpp:414-428 | An integer of any width and sign survives the way through the 64-bit signed integer of a message, unsigned 64-bit ones included. |
| `Marshalling.MapSocketMessageToRequest` | src/generic_services.cpp:494-567 | The loops over entries, members and array elements, with their early returns, compute fields and error of the specification. |
| `Marshalling.SetRequestFieldValue` | src/generic_services.cpp:261-492 | One value, with the zero for a tree of another kind. |
| `Marshalling.MapResponseToSocketMessage` | src/generic_services.cpp:865-884 | The loop over the members builds the object of the specification. |
| `Marshalling.SetOneResponseValue` | src/generic_services.cpp:569-805 | One value and the first of the two builders of nested objects. |
| `Marshalling.SetResponseFieldValue` | src/generic_services.cpp:807-862 | One field: the array loop and the second builder. |

## Left out

- RapidJSON is two facts: parsing undoes writing, and arrays, objects and strings start with their bracket or quote. Doubles are opaque: neither negative zero nor the last places, which RapidJSON's default parser may not restore, are modelled. JSON assertion failures give a null message; `std::stoul` and `std::stoi` errors are a `thrown` flag.
- Text is a sequence of characters: no UTF-8 or UTF-16 conversion; a string longer than RapidJSON's 32-bit size is not truncated.
- More than 2^31 - 1 acknowledged emits, after which the id would be negative.
- Sockets, TLS, threads and timers: a timer is an armed flag with exact cancellation, `asio::dispatch` an immediate call. A change of the attempt limit in the middle of a run and listeners that call back into the client are not modelled.
- Passes of different peers are atomic against each other in `Peers`; the source has one mutex per peer and none around the writer registry. `connected_peers` is a map of the run's state there, not a field of a class.
- How long the object of a peer that connected under an id in use lives: in `Peers` it may make passes for ever.
- In `OfferAnswer` a reply that ends a wait is not tied to the offer it answers, as in the source: `awaiting_peer_reply` is one flag. A reply that arrives after the peer connection is gone dereferences a null pointer in the source; the step does nothing here.
- The order of the entries in a `peer:update` message, its `topic_conf` and its session id; the text of the offer.
- The media readers of `TopicReaderH264` as objects: `Bridges.Bridge` keeps them in a second reader registry, because `addOutput`, `removeOutput` and `destroy` have the same effect on the outputs.
- `onData` and `sendLatestData` of a topic reader, `init_complete` and the counters of outputs and inputs: they feed sending and logging only.
- `MediaTrackInfo::in_use` is a set of topics beside the map of tracks.
- Ids 0 and 65535 are invalid in SCTP; what libdatachannel does with them is not modelled.
- The lines of an interface definition: its text and the types it includes are given. Extra packages and file extractors are left out.
- The content of QoS texts (`checkSubscriberQos` takes them from a function of topic and profile, another one in each pass), namespaces of nodes split from their names, the Docker monitor, and the calls of `collectIDLs` and `processAllPeerSubscriptions` from `runIntrospection`.
- What a report told is what `emit` handed to the Socket.IO client. A pass of the introspection is one step against the opening and closing of the socket, which another thread sees to.
- Fixed-size and upper-bounded arrays and `wstring` fields of ROS messages; floats are not rounded; nested messages are copied in and out instead of written through a pointer; a null pointer among the data.
- The H.264 encoder, image conversion, configuration, files, LEDs, git and logging.
