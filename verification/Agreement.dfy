/** The peers and the registries they share agree: every open channel is registered with the reader or
    writer of its topic, and what is registered is open, whatever the other peers do. */
module Agreement {
  import opened Options
  import opened Channels
  import opened TopicReaders
  import opened TopicWriters
  import opened Reconcile
  import opened PeerUpdates

  // ----- one kind of channel: its owners, a peer's own ones, and those registered -----

  type Links = set<(string, Channel)>

  /** What is registered for the topics, and of that what was given up without being taken out. */
  datatype Ledger = Ledger(reg: Links, left: Links)

  predicate Owns(created: seq<Owner>, x: Channel, o: Owner) {
    x.serial < |created| && created[x.serial] == o
  }

  /** A write channel for the heartbeat has no writer. */
  predicate Registers(use: Use, t: string) {
    use != Write || t != HEARTBEAT
  }

  /** Whatever is registered for a topic was created for it. */
  ghost predicate Known(use: Use, created: seq<Owner>, l: Ledger) {
    && l.left <= l.reg
    && forall t, x :: (t, x) in l.reg ==>
         Registers(use, t) && x.serial < |created| && created[x.serial].use == use && created[x.serial].topic == t
  }

  /** A peer's channels are its own, registered and not given up; and all of its channels that are
      registered and not given up are open. */
  ghost predicate Agree(use: Use, id: nat, own: map<string, Channel>, created: seq<Owner>, l: Ledger) {
    && (forall t :: t in own ==>
          && Owns(created, own[t], Owner(use, id, t)) && (t, own[t]) !in l.left
          && (Registers(use, t) ==> (t, own[t]) in l.reg))
    && (forall t, x :: (t, x) in l.reg && (t, x) !in l.left && Owns(created, x, Owner(use, id, t)) ==>
          t in own && own[t] == x)
  }

  /** The ledgers differ at most in channels of peer `id`, and nothing given up is taken out. */
  ghost predicate OnlyOf(use: Use, id: nat, created': seq<Owner>, l: Ledger, l': Ledger) {
    && l.left <= l'.left
    && (forall t, x :: ((t, x) in l.reg) != ((t, x) in l'.reg) ==> Owns(created', x, Owner(use, id, t)))
    && (forall t, x :: (t, x) in l'.left && (t, x) !in l.left ==> Owns(created', x, Owner(use, id, t)))
  }

  /** A peer opens `dc` for `t`, new or again. */
  lemma AddAgrees(use: Use, id: nat, own: map<string, Channel>, created: seq<Owner>, l: Ledger, t: string, dc: Channel)
    requires Known(use, created, l) && Agree(use, id, own, created, l)
    requires Registers(use, t) && Owns(created, dc, Owner(use, id, t))
    requires (t, dc) !in l.left && (t in own ==> own[t] == dc)
    ensures var l' := l.(reg := l.reg + {(t, dc)});
            && Known(use, created, l') && Agree(use, id, own[t := dc], created, l')
            && OnlyOf(use, id, created, l, l')
  {
  }

  /** A peer closes some of its channels: what it does not deregister then is given up. */
  lemma DropAgrees(use: Use, id: nat, own: map<string, Channel>, created: seq<Owner>, l: Ledger,
                   closed: map<string, Channel>, reg': Links)
    requires Known(use, created, l) && Agree(use, id, own, created, l)
    requires forall t :: t in closed ==> t in own && own[t] == closed[t]
    requires l.reg - Entries(closed) <= reg' <= l.reg
    ensures var l' := Ledger(reg', l.left + Entries(closed) * reg');
            && Known(use, created, l') && Agree(use, id, own - closed.Keys, created, l')
            && OnlyOf(use, id, created, l, l')
  {
  }

  /** What one peer does leaves the agreement of every other peer alone. */
  lemma OthersAgree(use: Use, i: nat, j: nat, own: map<string, Channel>, created: seq<Owner>, l: Ledger,
                    created': seq<Owner>, l': Ledger)
    requires i != j && Known(use, created, l) && Agree(use, j, own, created, l)
    requires created <= created' && OnlyOf(use, i, created', l, l')
    ensures Agree(use, j, own, created', l')
  {
  }

  lemma OnlyOfTwice(use: Use, id: nat, created: seq<Owner>, created': seq<Owner>, l: Ledger, l1: Ledger, l2: Ledger)
    requires created <= created' && OnlyOf(use, id, created, l, l1) && OnlyOf(use, id, created', l1, l2)
    ensures OnlyOf(use, id, created', l, l2)
  {
  }

  /** Creating other objects changes nothing. */
  lemma LaterAgrees(use: Use, id: nat, own: map<string, Channel>, created: seq<Owner>, l: Ledger, created': seq<Owner>)
    requires created <= created' && Known(use, created, l) && Agree(use, id, own, created, l)
    ensures Known(use, created', l) && Agree(use, id, own, created', l)
  {
  }

  // ----- a peer and the registries -----

  /** The outputs of readers and the inputs of writers that nobody will ever take out again. */
  datatype Left = Left(outputs: Links, inputs: Links)

  function ReadLedger(s: Shared, left: Left): Ledger {
    Ledger(Outputs(s.readers), left.outputs)
  }

  function WriteLedger(s: Shared, left: Left): Ledger {
    Ledger(Inputs(s.writers), left.inputs)
  }

  /** No track is ever given up. */
  function MediaLedger(s: Shared): Ledger {
    Ledger(Outputs(s.media), {})
  }

  ghost predicate SharedOk(s: Shared, left: Left) {
    && ReadersOk(s.readers) && Known(Read, s.created, ReadLedger(s, left))
    && ReadersOk(s.media) && Known(Media, s.created, MediaLedger(s))
    && Indexed(s.writers) && Known(Write, s.created, WriteLedger(s, left))
  }

  /** The tracks in use; only these are outputs of media readers. */
  function Shown(tracks: map<string, Channel>, inUse: set<string>): map<string, Channel> {
    map t | t in tracks && t in inUse :: tracks[t]
  }

  /** A peer connection that was there before. */
  predicate IsOlder(pc: Option<nat>, created: seq<Owner>) {
    pc.Some? ==> pc.value < |created|
  }

  ghost predicate TracksAgree(p: Peer, s: Shared) {
    && p.inUse <= p.tracks.Keys && IsOlder(p.pc, s.created)
    && (forall t :: t in p.tracks ==>
          Owns(s.created, p.tracks[t], Owner(Media, p.id, t)) && IsOlder(p.tracks[t].pc, s.created))
    && Agree(Media, p.id, Shown(p.tracks, p.inUse), s.created, MediaLedger(s))
  }

  ghost predicate Agrees(p: Peer, s: Shared, left: Left) {
    && Agree(Read, p.id, p.outbound, s.created, ReadLedger(s, left))
    && Agree(Write, p.id, p.inbound, s.created, WriteLedger(s, left))
    && TracksAgree(p, s)
  }

  /** The registries differ at most in channels of peer `id`. */
  ghost predicate Differs(id: nat, s: Shared, left: Left, s': Shared, left': Left) {
    && s.created <= s'.created
    && (forall k :: |s.created| <= k < |s'.created| ==> s'.created[k].peer == id)
    && OnlyOf(Read, id, s'.created, ReadLedger(s, left), ReadLedger(s', left'))
    && OnlyOf(Media, id, s'.created, MediaLedger(s), MediaLedger(s'))
    && OnlyOf(Write, id, s'.created, WriteLedger(s, left), WriteLedger(s', left'))
  }

  /** One operation of a peer keeps its own agreement and touches nobody else's channels. */
  ghost predicate Keeps(p: Peer, s: Shared, left: Left, p': Peer, s': Shared, left': Left) {
    SharedOk(s', left') && p'.id == p.id && Agrees(p', s', left') && Differs(p.id, s, left, s', left')
  }

  lemma DiffersTwice(id: nat, s: Shared, left: Left, s1: Shared, left1: Left, s2: Shared, left2: Left)
    requires Differs(id, s, left, s1, left1) && Differs(id, s1, left1, s2, left2)
    ensures Differs(id, s, left, s2, left2)
  {
    OnlyOfTwice(Read, id, s1.created, s2.created, ReadLedger(s, left), ReadLedger(s1, left1), ReadLedger(s2, left2));
    OnlyOfTwice(Media, id, s1.created, s2.created, MediaLedger(s), MediaLedger(s1), MediaLedger(s2));
    OnlyOfTwice(Write, id, s1.created, s2.created, WriteLedger(s, left), WriteLedger(s1, left1),
      WriteLedger(s2, left2));
  }

  lemma PeersApart(i: nat, q: Peer, s: Shared, left: Left, s': Shared, left': Left)
    requires Differs(i, s, left, s', left') && q.id != i && SharedOk(s, left) && Agrees(q, s, left)
    ensures Agrees(q, s', left')
  {
    OthersAgree(Read, i, q.id, q.outbound, s.created, ReadLedger(s, left), s'.created, ReadLedger(s', left'));
    OthersAgree(Media, i, q.id, Shown(q.tracks, q.inUse), s.created, MediaLedger(s), s'.created, MediaLedger(s'));
    OthersAgree(Write, i, q.id, q.inbound, s.created, WriteLedger(s, left), s'.created, WriteLedger(s', left'));
  }

  /** Creating an object keeps everything. */
  lemma CreatedKeeps(p: Peer, s: Shared, o: Owner, left: Left)
    requires SharedOk(s, left) && Agrees(p, s, left) && o.peer == p.id
    ensures Keeps(p, s, left, p, Created(s, o), left)
  {
    var created' := s.created + [o];
    LaterAgrees(Read, p.id, p.outbound, s.created, ReadLedger(s, left), created');
    LaterAgrees(Media, p.id, Shown(p.tracks, p.inUse), s.created, MediaLedger(s), created');
    LaterAgrees(Write, p.id, p.inbound, s.created, WriteLedger(s, left), created');
  }

  lemma RegisterReadKeeps(p: Peer, s: Shared, t: string, dc: Channel, c: bool, left: Left)
    requires SharedOk(s, left) && Agrees(p, s, left) && Owns(s.created, dc, Owner(Read, p.id, t))
    requires (t, dc) !in left.outputs && (t in p.outbound ==> p.outbound[t] == dc)
    ensures Keeps(p, s, left, p.(outbound := p.outbound[t := dc]), s.(readers := WithOutput(s.readers, t, dc, c)), left)
  {
    WithOutputAdds(s.readers, t, dc, c);
    AddAgrees(Read, p.id, p.outbound, s.created, ReadLedger(s, left), t, dc);
  }

  lemma ShownMore(p: Peer, t: string, dc: Channel)
    requires p.inUse <= p.tracks.Keys && (t in p.tracks ==> p.tracks[t] == dc)
    ensures Shown(p.tracks[t := dc], p.inUse + {t}) == Shown(p.tracks, p.inUse)[t := dc]
  {
  }

  lemma RegisterTrackKeeps(p: Peer, s: Shared, t: string, dc: Channel, left: Left)
    requires SharedOk(s, left) && Agrees(p, s, left) && Owns(s.created, dc, Owner(Media, p.id, t))
    requires IsOlder(dc.pc, s.created) && (t in p.tracks ==> p.tracks[t] == dc)
    ensures var p' := p.(tracks := p.tracks[t := dc], inUse := p.inUse + {t});
            Keeps(p, s, left, p', s.(media := WithOutput(s.media, t, dc, true)), left)
  {
    var p' := p.(tracks := p.tracks[t := dc], inUse := p.inUse + {t});
    var s' := s.(media := WithOutput(s.media, t, dc, true));
    WithOutputAdds(s.media, t, dc, true);
    AddAgrees(Media, p.id, Shown(p.tracks, p.inUse), s.created, MediaLedger(s), t, dc);
    ShownMore(p, t, dc);
    assert TracksAgree(p', s');
  }

  lemma RegisterWriteKeeps(p: Peer, s: Shared, t: string, dc: Channel, c: bool, left: Left)
    requires SharedOk(s, left) && Agrees(p, s, left) && Owns(s.created, dc, Owner(Write, p.id, t)) && t != HEARTBEAT
    requires (t, dc) !in left.inputs && (t in p.inbound ==> p.inbound[t] == dc)
    ensures Keeps(p, s, left, p.(inbound := p.inbound[t := dc]), s.(writers := WithInput(s.writers, t, dc, c)), left)
  {
    if dc in s.writers.index {
      assert (s.writers.index[dc], dc) in Inputs(s.writers);
    }
    WithInputAdds(s.writers, t, dc, c);
    AddAgrees(Write, p.id, p.inbound, s.created, WriteLedger(s, left), t, dc);
  }

  // ----- the operations of a pass -----

  lemma OpenReadKeeps(p: Peer, s: Shared, t: string, env: Env, left: Left)
    requires SharedOk(s, left) && Agrees(p, s, left)
    ensures var (p', s') := OpenRead(p, s, t, env); Keeps(p, s, left, p', s', left)
  {
    if t in p.outbound {
      assert p.outbound[t := p.outbound[t]] == p.outbound;
      RegisterReadKeeps(p, s, t, p.outbound[t], t in env.creatable, left);
      return;
    }
    NewReadKeeps(p, s, t, env, left);
  }

  lemma NewReadKeeps(p: Peer, s: Shared, t: string, env: Env, left: Left)
    requires SharedOk(s, left) && Agrees(p, s, left) && t !in p.outbound
    ensures var (p', s') := OpenRead(p, s, t, env); Keeps(p, s, left, p', s', left)
  {
    var s1 := Created(s, Owner(Read, p.id, t));
    CreatedKeeps(p, s, Owner(Read, p.id, t), left);
    RegisterReadKeeps(p, s1, t, NewChannel(p, s), t in env.creatable, left);
    DiffersTwice(p.id, s, left, s1, left, OpenRead(p, s, t, env).1, left);
  }

  lemma OpenTrackKeeps(p: Peer, s: Shared, t: string, left: Left)
    requires SharedOk(s, left) && Agrees(p, s, left)
    ensures var (p', s') := OpenTrack(p, s, t); Keeps(p, s, left, p', s', left)
  {
    if t in p.tracks {
      assert p.tracks[t := p.tracks[t]] == p.tracks;
      RegisterTrackKeeps(p, s, t, p.tracks[t], left);
      return;
    }
    NewTrackKeeps(p, s, t, left);
  }

  lemma NewTrackKeeps(p: Peer, s: Shared, t: string, left: Left)
    requires SharedOk(s, left) && Agrees(p, s, left) && t !in p.tracks
    ensures var (p', s') := OpenTrack(p, s, t); Keeps(p, s, left, p', s', left)
  {
    var s1 := Created(s, Owner(Media, p.id, t));
    CreatedKeeps(p, s, Owner(Media, p.id, t), left);
    RegisterTrackKeeps(p, s1, t, Channel(|s.created|, p.pc, 0), left);
    DiffersTwice(p.id, s, left, s1, left, OpenTrack(p, s, t).1, left);
  }

  lemma HeartbeatKeeps(p: Peer, s: Shared, dc: Channel, left: Left)
    requires SharedOk(s, left) && Agrees(p, s, left) && Owns(s.created, dc, Owner(Write, p.id, HEARTBEAT))
    ensures Agrees(p.(inbound := p.inbound[HEARTBEAT := dc]), s, left)
  {
  }

  lemma ReopenWriteKeeps(p: Peer, s: Shared, t: string, env: Env, left: Left)
    requires SharedOk(s, left) && Agrees(p, s, left) && t in p.inbound
    ensures var (p', s') := OpenWrite(p, s, t, env); Keeps(p, s, left, p', s', left)
  {
    assert p.inbound[t := p.inbound[t]] == p.inbound;
    if t != HEARTBEAT {
      RegisterWriteKeeps(p, s, t, p.inbound[t], t in env.creatable, left);
    }
  }

  lemma NewWriteKeeps(p: Peer, s: Shared, t: string, env: Env, left: Left)
    requires SharedOk(s, left) && Agrees(p, s, left) && t !in p.inbound && t != HEARTBEAT
    ensures var (p', s') := OpenWrite(p, s, t, env); Keeps(p, s, left, p', s', left)
  {
    var s1 := Created(s, Owner(Write, p.id, t));
    CreatedKeeps(p, s, Owner(Write, p.id, t), left);
    RegisterWriteKeeps(p, s1, t, NewChannel(p, s), t in env.creatable, left);
    DiffersTwice(p.id, s, left, s1, left, OpenWrite(p, s, t, env).1, left);
  }

  lemma OpenWriteKeeps(p: Peer, s: Shared, t: string, env: Env, left: Left)
    requires SharedOk(s, left) && Agrees(p, s, left)
    ensures var (p', s') := OpenWrite(p, s, t, env); Keeps(p, s, left, p', s', left)
  {
    if t in p.inbound {
      ReopenWriteKeeps(p, s, t, env, left);
    } else if t == HEARTBEAT {
      CreatedKeeps(p, s, Owner(Write, p.id, t), left);
      HeartbeatKeeps(p, Created(s, Owner(Write, p.id, t)), NewChannel(p, s), left);
    } else {
      NewWriteKeeps(p, s, t, env, left);
    }
  }

  lemma OpenRequestedKeeps(p: Peer, s: Shared, t: string, env: Env, left: Left)
    requires SharedOk(s, left) && Agrees(p, s, left)
    ensures var (p', s') := OpenRequested(p, s, t, env); Keeps(p, s, left, p', s', left)
  {
    if DataTopic(env, t) {
      OpenReadKeeps(p, s, t, env, left);
    } else if MediaTopic(env, t) {
      OpenTrackKeeps(p, s, t, left);
    }
  }

  lemma {:induction false} OpenReadsKeeps(p: Peer, s: Shared, ts: seq<string>, env: Env, left: Left)
    requires SharedOk(s, left) && Agrees(p, s, left)
    ensures var (p', s') := OpenReads(p, s, ts, env); Keeps(p, s, left, p', s', left)
    decreases |ts|
  {
    if ts != [] {
      var init, t := ts[..|ts| - 1], ts[|ts| - 1];
      var (q, s1) := OpenReads(p, s, init, env);
      OpenReadsKeeps(p, s, init, env, left);
      OpenRequestedKeeps(q, s1, t, env, left);
      DiffersTwice(p.id, s, left, s1, left, OpenRequested(q, s1, t, env).1, left);
    }
  }

  lemma {:induction false} OpenWritesKeeps(p: Peer, s: Shared, reqs: seq<WriteRequest>, env: Env, left: Left)
    requires SharedOk(s, left) && Agrees(p, s, left)
    ensures var (p', s') := OpenWrites(p, s, reqs, env); Keeps(p, s, left, p', s', left)
    decreases |reqs|
  {
    if reqs != [] {
      var init, t := reqs[..|reqs| - 1], reqs[|reqs| - 1].topic;
      var (q, s1) := OpenWrites(p, s, init, env);
      OpenWritesKeeps(p, s, init, env, left);
      OpenWriteKeeps(q, s1, t, env, left);
      DiffersTwice(p.id, s, left, s1, left, OpenWrite(q, s1, t, env).1, left);
    }
  }

  // ----- what is given up -----

  /** The channels a pass forgets without deregistering them: on a reconnect all of them, otherwise a read
      channel for the heartbeat that is no longer requested. */
  function GivenUpReads(p: Peer, reconnect: bool): map<string, Channel> {
    map t | t in p.outbound && (reconnect || (t == HEARTBEAT && t !in p.reqRead)) :: p.outbound[t]
  }

  function GivenUpWrites(p: Peer, reconnect: bool): map<string, Channel> {
    map t | t in p.inbound && reconnect && t != HEARTBEAT :: p.inbound[t]
  }

  function LeftBy(p: Peer, reconnect: bool, left: Left): Left {
    Left(left.outputs + Entries(GivenUpReads(p, reconnect)), left.inputs + Entries(GivenUpWrites(p, reconnect)))
  }

  /** A peer closes read channels; what stays registered of them is given up. */
  lemma DropReadsKeeps(p: Peer, s: Shared, closed: map<string, Channel>, readers': map<string, Reader>, left: Left)
    requires SharedOk(s, left) && Agrees(p, s, left) && ReadersOk(readers')
    requires forall t :: t in closed ==> t in p.outbound && p.outbound[t] == closed[t]
    requires Outputs(s.readers) - Entries(closed) <= Outputs(readers') <= Outputs(s.readers)
    ensures var left' := left.(outputs := left.outputs + Entries(closed) * Outputs(readers'));
            Keeps(p, s, left, p.(outbound := p.outbound - closed.Keys), s.(readers := readers'), left')
  {
    DropAgrees(Read, p.id, p.outbound, s.created, ReadLedger(s, left), closed, Outputs(readers'));
  }

  lemma DropWritesKeeps(p: Peer, s: Shared, closed: map<string, Channel>, writers': Writers, left: Left)
    requires SharedOk(s, left) && Agrees(p, s, left) && Indexed(writers')
    requires forall t :: t in closed ==> t in p.inbound && p.inbound[t] == closed[t]
    requires Inputs(s.writers) - Entries(closed) <= Inputs(writers') <= Inputs(s.writers)
    ensures var left' := left.(inputs := left.inputs + Entries(closed) * Inputs(writers'));
            Keeps(p, s, left, p.(inbound := p.inbound - closed.Keys), s.(writers := writers'), left')
  {
    DropAgrees(Write, p.id, p.inbound, s.created, WriteLedger(s, left), closed, Inputs(writers'));
  }

  lemma SameLinks(a: Links, b: Links)
    requires forall t, x :: (t, x) in a <==> (t, x) in b
    ensures a == b
  {
    forall z: (string, Channel)
      ensures z in a <==> z in b
    {
      assert z == (z.0, z.1);
    }
  }

  /** Of the read channels that are closed only one for the heartbeat stays registered. */
  lemma StayRegistered(p: Peer, reg: Links)
    requires forall t :: t in p.outbound ==> (t, p.outbound[t]) in reg
    ensures var closing := ReadsToClose(p);
            Entries(closing) * (reg - Entries(closing - {HEARTBEAT})) == Entries(GivenUpReads(p, false))
    ensures Entries(p.outbound) * reg == Entries(GivenUpReads(p, true))
    ensures Entries(GivenUpWrites(p, false)) == {}
  {
    var closing := ReadsToClose(p);
    EntriesAre(closing);
    EntriesAre(closing - {HEARTBEAT});
    EntriesAre(p.outbound);
    EntriesAre(GivenUpReads(p, false));
    EntriesAre(GivenUpReads(p, true));
    SameLinks(Entries(closing) * (reg - Entries(closing - {HEARTBEAT})), Entries(GivenUpReads(p, false)));
    SameLinks(Entries(p.outbound) * reg, Entries(GivenUpReads(p, true)));
  }

  lemma LeftByClosing(p: Peer, reg: Links, left: Left)
    requires forall t :: t in p.outbound ==> (t, p.outbound[t]) in reg
    ensures var closing := ReadsToClose(p);
            LeftBy(p, false, left)
            == left.(outputs := left.outputs + Entries(closing) * (reg - Entries(closing - {HEARTBEAT})))
  {
    StayRegistered(p, reg);
    assert left.inputs + {} == left.inputs;
  }

  lemma CloseReadsKeeps(p: Peer, s: Shared, left: Left)
    requires SharedOk(s, left) && Agrees(p, s, left)
    ensures var (p', s') := CloseReads(p, s, ReadsToClose(p)); Keeps(p, s, left, p', s', LeftBy(p, false, left))
  {
    var closing := ReadsToClose(p);
    DropOutputsRemoves(s.readers, closing - {HEARTBEAT});
    LeftByClosing(p, Outputs(s.readers), left);
    DropReadsKeeps(p, s, closing, DropOutputs(s.readers, closing - {HEARTBEAT}), left);
  }

  lemma ShownLess(p: Peer, close: bool)
    ensures var stopping := TracksToStop(p);
            var tracks' := if close then p.tracks - stopping.Keys else p.tracks;
            Shown(tracks', p.inUse - stopping.Keys) == Shown(p.tracks, p.inUse) - stopping.Keys
  {
  }

  lemma StopSomeKeeps(p: Peer, s: Shared, stopping: map<string, Channel>, tracks': map<string, Channel>,
                      inUse': set<string>, left: Left)
    requires SharedOk(s, left) && Agrees(p, s, left)
    requires forall t :: t in stopping ==> t in p.tracks && t in p.inUse && p.tracks[t] == stopping[t]
    requires inUse' <= tracks'.Keys && forall t :: t in tracks' ==> t in p.tracks && p.tracks[t] == tracks'[t]
    requires Shown(tracks', inUse') == Shown(p.tracks, p.inUse) - stopping.Keys
    ensures Keeps(p, s, left, p.(tracks := tracks', inUse := inUse'), s.(media := DropOutputs(s.media, stopping)), left)
  {
    var reg' := Outputs(DropOutputs(s.media, stopping));
    DropOutputsRemoves(s.media, stopping);
    DropAgrees(Media, p.id, Shown(p.tracks, p.inUse), s.created, MediaLedger(s), stopping, reg');
    assert {} + Entries(stopping) * reg' == {};
  }

  lemma StopTracksKeeps(p: Peer, s: Shared, close: bool, left: Left)
    requires SharedOk(s, left) && Agrees(p, s, left)
    ensures var (p', s') := StopTracks(p, s, TracksToStop(p), close); Keeps(p, s, left, p', s', left)
  {
    var stopping := TracksToStop(p);
    ShownLess(p, close);
    StopSomeKeeps(p, s, stopping, if close then p.tracks - stopping.Keys else p.tracks, p.inUse - stopping.Keys, left);
  }

  lemma NoHeartbeat(p: Peer, reg: Links)
    requires forall t :: t in p.inbound && t != HEARTBEAT ==> (t, p.inbound[t]) in reg
    requires forall t, x :: (t, x) in reg ==> t != HEARTBEAT
    ensures Entries(p.inbound) * reg == Entries(GivenUpWrites(p, true))
    ensures var closing := WritesToClose(p);
            Entries(closing) * (reg - Entries(closing - {HEARTBEAT})) == {}
  {
    var closing := WritesToClose(p);
    EntriesAre(closing);
    EntriesAre(closing - {HEARTBEAT});
    EntriesAre(p.inbound);
    EntriesAre(GivenUpWrites(p, true));
    SameLinks(Entries(p.inbound) * reg, Entries(GivenUpWrites(p, true)));
    SameLinks(Entries(closing) * (reg - Entries(closing - {HEARTBEAT})), {});
  }

  lemma CloseWritesKeeps(p: Peer, s: Shared, left: Left)
    requires SharedOk(s, left) && Agrees(p, s, left)
    ensures var (p', s') := CloseWrites(p, s, WritesToClose(p)); Keeps(p, s, left, p', s', left)
  {
    var closing := WritesToClose(p);
    DropInputsRemoves(s.writers, closing - {HEARTBEAT});
    NoHeartbeat(p, Inputs(s.writers));
    assert left.inputs + {} == left.inputs;
    DropWritesKeeps(p, s, closing, DropInputs(s.writers, closing - {HEARTBEAT}), left);
  }

  /** A reconnect closes everything and deregisters nothing. */
  lemma ForgetKeeps(p: Peer, s: Shared, left: Left)
    requires SharedOk(s, left) && Agrees(p, s, left)
    ensures Keeps(p, s, left, p.(outbound := map[], inbound := map[]), s, LeftBy(p, true, left))
  {
    var q, left1 := p.(outbound := map[]), left.(outputs := left.outputs + Entries(GivenUpReads(p, true)));
    MinusAll(p.outbound);
    MinusAll(p.inbound);
    StayRegistered(p, Outputs(s.readers));
    DropReadsKeeps(p, s, p.outbound, s.readers, left);
    NoHeartbeat(p, Inputs(s.writers));
    DropWritesKeeps(q, s, q.inbound, s.writers, left1);
    DiffersTwice(p.id, s, left, s, left1, s, LeftBy(p, true, left));
  }

  lemma RestartedKeeps(p: Peer, s: Shared, left: Left)
    requires SharedOk(s, left) && Agrees(p, s, left)
    ensures var (p', s') := Restarted(p, s, true); Keeps(p, s, left, p', s', LeftBy(p, true, left))
    ensures var (p', s') := Restarted(p, s, false); Keeps(p, s, left, p', s', left)
  {
    var q, left' := p.(outbound := map[], inbound := map[]), LeftBy(p, true, left);
    ForgetKeeps(p, s, left);
    CreatedKeeps(q, s, Owner(Connection, p.id, ""), left');
    DiffersTwice(p.id, s, left, s, left', Restarted(p, s, true).1, left');
  }

  lemma OpenAllKeeps(p: Peer, s: Shared, env: Env, left: Left)
    requires SharedOk(s, left) && Agrees(p, s, left)
    ensures var (p', s') := OpenAll(p, s, env); Keeps(p, s, left, p', s', left)
  {
    var (p1, s1) := OpenReads(p, s, p.reqRead, env);
    OpenReadsKeeps(p, s, p.reqRead, env, left);
    OpenWritesKeeps(p1, s1, p.reqWrite, env, left);
    DiffersTwice(p.id, s, left, s1, left, OpenWrites(p1, s1, p.reqWrite, env).1, left);
  }

  lemma CloseAllKeeps(p: Peer, s: Shared, close: bool, left: Left)
    requires SharedOk(s, left) && Agrees(p, s, left)
    ensures var (p', s') := CloseAll(p, s, close); Keeps(p, s, left, p', s', LeftBy(p, false, left))
  {
    var left' := LeftBy(p, false, left);
    var (p1, s1) := CloseReads(p, s, ReadsToClose(p));
    CloseReadsKeeps(p, s, left);
    var (p2, s2) := StopTracks(p1, s1, TracksToStop(p1), close);
    StopTracksKeeps(p1, s1, close, left');
    DiffersTwice(p.id, s, left, s1, left', s2, left');
    CloseWritesKeeps(p2, s2, left');
    DiffersTwice(p.id, s, left, s2, left', CloseWrites(p2, s2, WritesToClose(p2)).1, left');
  }

  /** Opening what is requested changes nothing about what the closing loops will give up. */
  lemma GivenUpAfter(p: Peer, s: Shared, env: Env, left: Left)
    ensures LeftBy(OpenAll(p, s, env).0, false, left) == LeftBy(p, false, left)
  {
    var q := OpenAll(p, s, env).0;
    AllOpened(p, s, env);
    assert DataTopics(p.reqRead, env) <= Topics(p.reqRead);
    assert GivenUpReads(q, false) == GivenUpReads(p, false);
    assert GivenUpWrites(q, false) == GivenUpWrites(p, false);
  }

  /** The loops of a pass. */
  lemma LoopsKeep(p: Peer, s: Shared, close: bool, env: Env, left: Left)
    requires SharedOk(s, left) && Agrees(p, s, left)
    ensures var (p1, s1) := OpenAll(p, s, env); var (p', s') := CloseAll(p1, s1, close);
            Keeps(p, s, left, p', s', LeftBy(p, false, left))
  {
    var (p1, s1) := OpenAll(p, s, env);
    OpenAllKeeps(p, s, env, left);
    var (p2, s2) := CloseAll(p1, s1, close);
    CloseAllKeeps(p1, s1, close, left);
    GivenUpAfter(p, s, env, left);
    DiffersTwice(p.id, s, left, s1, left, s2, LeftBy(p, false, left));
  }

  /** After a restart nothing is open. */
  lemma GivenUpOnce(p: Peer, s: Shared, left: Left)
    ensures LeftBy(Restarted(p, s, true).0, false, LeftBy(p, true, left)) == LeftBy(p, true, left)
    ensures LeftBy(Restarted(p, s, false).0, false, left) == LeftBy(p, false, left)
  {
    var q := Restarted(p, s, true).0;
    assert GivenUpReads(q, false).Keys == {} && GivenUpWrites(q, false).Keys == {};
    assert Entries(GivenUpReads(q, false)) == {} && Entries(GivenUpWrites(q, false)) == {};
  }

  lemma ReconciledKeeps(p: Peer, s: Shared, reconnect: bool, env: Env, left: Left)
    requires SharedOk(s, left) && Agrees(p, s, left)
    ensures var (p', s') := Reconciled(p, s, reconnect, env); Keeps(p, s, left, p', s', LeftBy(p, reconnect, left))
  {
    var (p1, s1) := Restarted(p, s, reconnect);
    RestartedKeeps(p, s, left);
    GivenUpOnce(p, s, left);
    var left1 := if reconnect then LeftBy(p, true, left) else left;
    LoopsKeep(p1, s1, reconnect || !p.connected, env, left1);
    DiffersTwice(p.id, s, left, s1, left1, Reconciled(p, s, reconnect, env).1, LeftBy(p, reconnect, left));
  }

  /** A pass keeps the agreement of the peer that makes it, gives up exactly what it forgets, and touches
      no other peer's channels. */
  lemma PassKeeps(p: Peer, s: Shared, env: Env, left: Left)
    requires SharedOk(s, left) && Agrees(p, s, left)
    ensures var (p', s') := Pass(p, s, env); Keeps(p, s, left, p', s', LeftBy(p, IsReconnect(p, env), left))
  {
    ReconciledKeeps(p, s, IsReconnect(p, env), env, left);
  }

  // ----- a second pass -----

  /** Registering again what is registered changes nothing. */
  lemma OpenAgain(p: Peer, s: Shared, t: string, env: Env, left: Left)
    requires Agrees(p, s, left)
    ensures t in p.outbound ==> OpenRead(p, s, t, env) == (p, s)
    ensures t in p.inUse ==> OpenTrack(p, s, t) == (p, s)
    ensures t in p.inbound ==> OpenWrite(p, s, t, env) == (p, s)
  {
    if t in p.outbound {
      assert (t, p.outbound[t]) in Outputs(s.readers);
      assert WithOutput(s.readers, t, p.outbound[t], t in env.creatable) == s.readers;
    }
    if t in p.inUse {
      assert t in Shown(p.tracks, p.inUse) && (t, p.tracks[t]) in Outputs(s.media);
      assert p.inUse + {t} == p.inUse && WithOutput(s.media, t, p.tracks[t], true) == s.media;
    }
    if t in p.inbound && t != HEARTBEAT {
      assert (t, p.inbound[t]) in Inputs(s.writers);
      assert s.writers.byTopic[t := s.writers.byTopic[t]] == s.writers.byTopic;
    }
  }

  lemma {:induction false} OpenReadsAgain(p: Peer, s: Shared, ts: seq<string>, env: Env, left: Left)
    requires Agrees(p, s, left) && DataTopics(ts, env) <= p.outbound.Keys && MediaTopics(ts, env) <= p.inUse
    ensures OpenReads(p, s, ts, env) == (p, s)
    decreases |ts|
  {
    if ts != [] {
      TopicsOfLast(ts, env);
      OpenReadsAgain(p, s, ts[..|ts| - 1], env, left);
      OpenAgain(p, s, ts[|ts| - 1], env, left);
    }
  }

  lemma {:induction false} OpenWritesAgain(p: Peer, s: Shared, reqs: seq<WriteRequest>, env: Env, left: Left)
    requires Agrees(p, s, left) && WriteTopics(reqs) <= p.inbound.Keys
    ensures OpenWrites(p, s, reqs, env) == (p, s)
    decreases |reqs|
  {
    if reqs != [] {
      WriteTopicsOfLast(reqs);
      OpenWritesAgain(p, s, reqs[..|reqs| - 1], env, left);
      OpenAgain(p, s, reqs[|reqs| - 1].topic, env, left);
    }
  }

  lemma CloseNoReads(p: Peer, s: Shared)
    requires p.outbound.Keys <= Topics(p.reqRead)
    ensures CloseReads(p, s, ReadsToClose(p)) == (p, s)
  {
    assert ReadsToClose(p) == map[];
    CloseNothing(p, s, false);
  }

  lemma StopNoTracks(p: Peer, s: Shared, close: bool)
    requires p.inUse <= Topics(p.reqRead)
    ensures StopTracks(p, s, TracksToStop(p), close) == (p, s)
  {
    assert TracksToStop(p) == map[];
    CloseNothing(p, s, close);
  }

  lemma CloseNoWrites(p: Peer, s: Shared)
    requires p.inbound.Keys <= WriteTopics(p.reqWrite)
    ensures CloseWrites(p, s, WritesToClose(p)) == (p, s)
  {
    assert WritesToClose(p) == map[];
    CloseNothing(p, s, false);
  }

  lemma CloseAgain(p: Peer, s: Shared, close: bool)
    requires p.outbound.Keys <= Topics(p.reqRead) && p.inUse <= Topics(p.reqRead)
             && p.inbound.Keys <= WriteTopics(p.reqWrite)
    ensures CloseAll(p, s, close) == (p, s)
  {
    CloseNoReads(p, s);
    StopNoTracks(p, s, close);
    CloseNoWrites(p, s);
  }

  /** Two observations that tell the same of the topics in `ts`. */
  predicate SameTopics(ts: seq<string>, env: Env, env': Env) {
    forall t :: t in ts ==> (DataTopic(env, t) <==> DataTopic(env', t)) && (MediaTopic(env, t) <==> MediaTopic(env', t))
  }

  lemma SameTopicsOpen(ts: seq<string>, env: Env, env': Env)
    requires SameTopics(ts, env, env')
    ensures DataTopics(ts, env') == DataTopics(ts, env) && MediaTopics(ts, env') == MediaTopics(ts, env)
  {
  }

  /** A second pass, also right after a reconnect, that finds the requests and the kinds of the requested
      topics unchanged and is no reconnect itself: whatever else it observes, it opens and closes nothing,
      registers nothing and asks for no negotiation. */
  lemma SecondPassIsIdle(p: Peer, s: Shared, env: Env, env': Env, left: Left)
    requires SharedOk(s, left) && Agrees(p, s, left)
    requires SameTopics(p.reqRead, env, env') && !IsReconnect(Pass(p, s, env).0, env')
    ensures var (p', s') := Pass(p, s, env);
            Pass(p', s', env') == (p'.(negotiation := false, awaiting := false), s')
  {
    var (p', s') := Pass(p, s, env);
    PassKeeps(p, s, env, left);
    PassReconciles(p, s, env);
    PassRequests(p, s, env);
    SameTopicsOpen(p.reqRead, env, env');
    assert MediaTopics(p.reqRead, env) <= Topics(p.reqRead) && DataTopics(p.reqRead, env) <= Topics(p.reqRead);
    var left' := LeftBy(p, IsReconnect(p, env), left);
    var p1 := Restarted(p', s', false).0;
    OpenReadsAgain(p1, s', p1.reqRead, env', left');
    OpenWritesAgain(p1, s', p1.reqWrite, env', left');
    CloseAgain(p1, s', !p'.connected);
  }

  /** A pass of a peer that has gone and has nothing open changes nothing that is shared, whatever it
      observes: so passes that are still queued when a peer goes do not matter. */
  lemma GoneIsIdle(p: Peer, s: Shared, env: Env)
    requires !p.connected && p.reqRead == [] && p.reqWrite == []
    requires p.outbound == map[] && p.inbound == map[] && p.inUse == {}
    ensures Pass(p, s, env).1 == s
  {
    var p1 := Restarted(p, s, false).0;
    CloseAgain(p1, s, true);
  }
}
