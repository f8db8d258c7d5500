/** The ids of the data channels that are open in a run, and later in it (src/wrtc_peer.cpp). */
module OpenIds {
  import opened Options
  import opened Channels
  import opened TopicReaders
  import opened TopicWriters
  import opened Reconcile
  import opened Agreement
  import opened Peers
  import opened PeerRuns
  import opened ChannelIds

  /** The steps that open or close something. */
  lemma OwnStepNumbered(w: World, e: Event)
    requires Ok(w) && AllNumbered(w) && (e.PassOf? || e.Disconnect?)
    ensures AllNumbered(Step(w, e))
  {
    if e.PassOf? {
      if e.peer in w.peers { PassedNumbered(w, e.peer, e.env); }
    } else if Finds(w, e.name) {
      DisconnectNumbered(w, e.name, e.env);
    }
  }

  lemma RequestNumbered(w: World, e: Event)
    requires AllNumbered(w) && IsRequest(e)
    ensures AllNumbered(Step(w, e))
  {
    if Finds(w, e.name) {
      AskedNumbered(w, e);
    } else {
      assert Step(w, e) == w;
    }
  }

  lemma StepNumbered(w: World, e: Event)
    requires Ok(w) && AllNumbered(w)
    ensures AllNumbered(Step(w, e))
  {
    if e.Connect? {
      ConnectNumbered(w, e.name, e.reqRead, e.reqWrite);
    } else if IsRequest(e) {
      RequestNumbered(w, e);
    } else {
      OwnStepNumbered(w, e);
    }
  }

  lemma {:induction false} RunNumbered(w: World, es: seq<Event>)
    requires Ok(w) && AllNumbered(w)
    ensures AllNumbered(Run(w, es))
    decreases |es|
  {
    if es != [] {
      StepKeeps(w, es[0]);
      StepNumbered(w, es[0]);
      RunNumbered(Step(w, es[0]), es[1..]);
    }
  }

  /** What was created stays, and more may come. */
  lemma {:induction false} RunCreates(w: World, es: seq<Event>)
    requires Ok(w)
    ensures w.shared.created <= Run(w, es).shared.created
    decreases |es|
  {
    if es != [] {
      StepKeeps(w, es[0]);
      StepCreates(w, es[0]);
      RunCreates(Step(w, es[0]), es[1..]);
    }
  }

  lemma PassCreates(w: World, i: nat, p: Peer, env: Env)
    requires Ok(w) && i in w.peers && (p == w.peers[i] || p == Leaving(w.peers[i]))
    ensures w.shared.created <= Pass(p, w.shared, env).1.created
  {
    assert Agrees(w.peers[i], w.shared, w.left);
    PassKeeps(p, w.shared, env, w.left);
  }

  lemma StepCreates(w: World, e: Event)
    requires Ok(w)
    ensures w.shared.created <= Step(w, e).shared.created
  {
    if e.PassOf? {
      if e.peer in w.peers { PassCreates(w, e.peer, w.peers[e.peer], e.env); }
    } else if e.Disconnect? && Finds(w, e.name) {
      PassCreates(w, w.names[e.name], Leaving(w.peers[w.names[e.name]]), e.env);
    }
  }

  lemma {:induction false} RunTwice(w: World, a: seq<Event>, b: seq<Event>)
    ensures Run(w, a + b) == Run(Run(w, a), b)
    decreases |a|
  {
    if a == [] {
      assert a + b == b;
    } else {
      assert (a + b)[1..] == a[1..] + b;
      RunTwice(Step(w, a[0]), a[1..], b);
    }
  }

  predicate IsOpenAt(w: World, i: nat, x: Channel) {
    i in w.peers && (x in w.peers[i].outbound.Values || x in w.peers[i].inbound.Values)
  }

  lemma OpenTells(es: seq<Event>, i: nat, x: Channel)
    requires IsOpenAt(Run(NOTHING, es), i, x)
    ensures var created := Run(NOTHING, es).shared.created;
            x.serial < |created| && IsOpenBy(created[x.serial], i) && x.id == IdAt(created, i, x.serial)
  {
    var w := Run(NOTHING, es);
    NothingIsOk();
    RunKeeps(NOTHING, es);
    RunNumbered(NOTHING, es);
    assert Agrees(w.peers[i], w.shared, w.left) && Numbered(w.peers[i], w.shared.created);
    SerialsTell(w.peers[i], w.shared, w.left, x);
  }

  lemma TellsLater(created: seq<Owner>, created': seq<Owner>, i: nat, x: Channel)
    requires created <= created' && x.serial < |created|
    ensures created'[x.serial] == created[x.serial] && IdAt(created', i, x.serial) == IdAt(created, i, x.serial)
  {
    assert created'[..x.serial + 1] == created[..x.serial + 1];
  }

  lemma CreatedLater(es: seq<Event>, later: seq<Event>)
    ensures Run(NOTHING, es).shared.created <= Run(NOTHING, es + later).shared.created
  {
    NothingIsOk();
    RunKeeps(NOTHING, es);
    RunCreates(Run(NOTHING, es), later);
    RunTwice(NOTHING, es, later);
  }

  /** A channel tells the same about itself for ever. */
  lemma ToldLater(es: seq<Event>, later: seq<Event>, i: nat, x: Channel)
    requires IsOpenAt(Run(NOTHING, es), i, x)
    ensures var created := Run(NOTHING, es + later).shared.created;
            x.serial < |created| && IsOpenBy(created[x.serial], i) && x.id == IdAt(created, i, x.serial)
  {
    OpenTells(es, i, x);
    CreatedLater(es, later);
    TellsLater(Run(NOTHING, es).shared.created, Run(NOTHING, es + later).shared.created, i, x);
  }

  /** Ids are never used again: a channel that is open after some run and a different one that is open after
      the same run or a longer one, at the same peer and in either direction, have the same id exactly when a
      multiple of 65536 opens lies between them; so up to 65535 opens, their ids are different. */
  lemma IdsNeverReused(es: seq<Event>, later: seq<Event>, i: nat, x: Channel, y: Channel)
    requires IsOpenAt(Run(NOTHING, es), i, x) && IsOpenAt(Run(NOTHING, es + later), i, y) && x.serial != y.serial
    ensures var created := Run(NOTHING, es + later).shared.created;
            && x.serial < |created| && y.serial < |created|
            && (x.id == y.id <==> (Nth(created, i, y.serial) - Nth(created, i, x.serial)) % 0x1_0000 == 0)
            && (Opened(created, i) <= 0xFFFF ==> x.id != y.id)
  {
    var created := Run(NOTHING, es + later).shared.created;
    ToldLater(es, later, i, x);
    OpenTells(es + later, i, y);
    SameIdIff(created, i, x.serial, y.serial);
  }

  lemma SameIdIff(created: seq<Owner>, i: nat, k: nat, l: nat)
    requires k < |created| && l < |created| && k != l && IsOpenBy(created[k], i) && IsOpenBy(created[l], i)
    ensures IdAt(created, i, k) == IdAt(created, i, l) <==> (Nth(created, i, l) - Nth(created, i, k)) % 0x1_0000 == 0
    ensures Opened(created, i) <= 0xFFFF ==> IdAt(created, i, k) != IdAt(created, i, l)
  {
    Remainders(Nth(created, i, k), Nth(created, i, l));
    if k < l {
      IdsReused(created, i, k, l);
    } else {
      IdsReused(created, i, l, k);
    }
  }

  /** In every run, two data channels open at the same peer, in either direction, have different ids as
      long as the peer has opened at most 65535. */
  lemma OpenIdsDistinct(es: seq<Event>, i: nat, x: Channel, y: Channel)
    requires var w := Run(NOTHING, es);
             && x != y && Opened(w.shared.created, i) <= 0xFFFF && IsOpenAt(w, i, x) && IsOpenAt(w, i, y)
    ensures x.id != y.id && x.id != 0
  {
    var w := Run(NOTHING, es);
    NothingIsOk();
    RunKeeps(NOTHING, es);
    RunNumbered(NOTHING, es);
    assert Agrees(w.peers[i], w.shared, w.left) && Numbered(w.peers[i], w.shared.created);
    IdsApart(w.peers[i], w.shared, w.left, x, y);
  }

  lemma IdsApart(p: Peer, s: Shared, left: Left, x: Channel, y: Channel)
    requires Agrees(p, s, left) && Numbered(p, s.created) && x != y && Opened(s.created, p.id) <= 0xFFFF
    requires x in p.outbound.Values || x in p.inbound.Values
    requires y in p.outbound.Values || y in p.inbound.Values
    ensures x.id != y.id && x.id != 0
  {
    SerialsTell(p, s, left, x);
    SerialsTell(p, s, left, y);
    if x.serial == y.serial {
      SameSerial(p, s, left, x, y);
    } else {
      IdsReused(s.created, p.id, if x.serial < y.serial then x.serial else y.serial,
                if x.serial < y.serial then y.serial else x.serial);
    }
  }

  lemma SerialsTell(p: Peer, s: Shared, left: Left, x: Channel)
    requires Agrees(p, s, left) && Numbered(p, s.created)
    requires x in p.outbound.Values || x in p.inbound.Values
    ensures x.serial < |s.created| && IsOpenBy(s.created[x.serial], p.id) && x.id == IdAt(s.created, p.id, x.serial)
  {
  }

  lemma SameSerial(p: Peer, s: Shared, left: Left, x: Channel, y: Channel)
    requires Agrees(p, s, left)
    requires x in p.outbound.Values || x in p.inbound.Values
    requires y in p.outbound.Values || y in p.inbound.Values
    requires x.serial == y.serial
    ensures x == y
  {
  }
}
