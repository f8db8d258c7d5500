/** The offer/answer exchange of one peer: every interleaving of its queued passes, of replies and of
    `onDisconnected` (src/wrtc_peer.cpp). A pass is cut where another thread can come between. */
module OfferAnswer {
  import opened Options
  import opened Channels
  import opened TopicReaders
  import opened TopicWriters
  import opened Reconcile
  import opened Requests

  /** Where the pass that holds the mutex stands. */
  datatype Phase =
    | Unlocked
    | Begun(reconnect: bool)    // is_reconnect is known
    | Looped(reconnect: bool)   // the loops are done, awaiting_peer_reply is reset
    | Offered(reconnect: bool)  // an offer was made, or none was needed
    | Waiting                   // the message is sent; waits for the reply
    | Cleaned                   // nothing is sent

  /** `queued` counts the passes that wait for the mutex. `leaving` says how far `onDisconnected` is.
      `offers` and `replies` count offers made and replies to updates that ended a wait. */
  datatype Leaving = Present | Flagged | Working | Gone

  datatype Session = Session(peer: Peer, phase: Phase, queued: nat, leaving: Leaving, offers: nat, replies: nat)

  datatype Event =
    | Ask(e: Request)                // a request, then a queued pass
    | Queue                          // a pass for another reason: an ICE failure, new topics
    | Begin(env: Env)                // a queued pass takes the mutex
    | Loops(env: Env, shared: Shared)
    | Offer
    | Decide
    | Reply                          // the peer's answer, an error included
    | Release                        // the wait is over
    | Flag                           // onDisconnected up to its pass
    | BeginLast(env: Env)            // the pass of onDisconnected takes the mutex

  datatype Request = AddRead(topic: string) | RemoveRead(topic: string) | AddWrite(topic: string, msgType: string)
                   | RemoveWrite(topic: string) | PeerFailed

  function Asked(p: Peer, e: Request): Peer {
    match e
    case AddRead(t) => p.(reqRead := WithRead(p.reqRead, t))
    case RemoveRead(t) => p.(reqRead := WithoutRead(p.reqRead, t))
    case AddWrite(t, msgType) => p.(reqWrite := WithWrite(p.reqWrite, t, msgType))
    case RemoveWrite(t) => p.(reqWrite := Purged(p.reqWrite, t))
    case PeerFailed => p.(needsRestart := true)
  }

  /** The message goes out, or the peer connection goes. */
  function Decided(x: Session): Session
    requires x.phase.Offered?
  {
    if !x.peer.connected && !x.phase.reconnect then x.(peer := x.peer.(pc := None), phase := Cleaned)
    else if x.peer.connected then x.(phase := Waiting)
    else x.(phase := Cleaned)
  }

  /** The mutex is released; when the pass was that of `onDisconnected`, the peer is erased. */
  function Released(x: Session): Session {
    x.(phase := Unlocked, leaving := if x.leaving == Working then Gone else x.leaving)
  }

  /** One step; a step whose time has not come changes nothing. */
  function Step(x: Session, e: Event): Session {
    match e
    case Ask(r) =>
      if x.leaving == Present then x.(peer := Asked(x.peer, r), queued := x.queued + 1) else x
    case Queue => x.(queued := x.queued + 1)
    case Begin(env) =>
      if x.phase == Unlocked && x.queued > 0 then
        x.(phase := Begun(IsReconnect(x.peer, env)), queued := x.queued - 1)
      else x
    case BeginLast(env) =>
      if x.phase == Unlocked && x.leaving == Flagged then
        x.(phase := Begun(IsReconnect(x.peer, env)), leaving := Working)
      else x
    case Loops(env, shared) =>
      if x.phase.Begun? then
        x.(peer := Reconciled(x.peer, shared, x.phase.reconnect, env).0.(awaiting := false),
          phase := Looped(x.phase.reconnect))
      else x
    case Offer =>
      if x.phase.Looped? then
        if x.peer.connected && x.peer.negotiation then
          x.(peer := x.peer.(awaiting := true), phase := Offered(x.phase.reconnect), offers := x.offers + 1)
        else x.(phase := Offered(x.phase.reconnect))
      else x
    case Decide => if x.phase.Offered? then Decided(x) else x
    case Reply =>
      if x.peer.awaiting then x.(peer := x.peer.(awaiting := false), replies := x.replies + 1) else x
    case Release =>
      if x.phase == Cleaned || (x.phase == Waiting && !(x.peer.awaiting && x.peer.connected)) then Released(x) else x
    case Flag =>
      if x.leaving == Present then
        x.(peer := x.peer.(reqRead := [], reqWrite := [], connected := false), leaving := Flagged)
      else x
  }

  function Run(x: Session, es: seq<Event>): Session
    decreases |es|
  {
    if es == [] then x else Run(Step(x, es[0]), es[1..])
  }

  /** A peer right after its constructor, with the pass that `onPeerConnected` queues. */
  function Fresh(id: nat, pc: nat): Session {
    Session(Peer(id, true, Some(pc), false, map[], map[], map[], {}, [], [], false, false, 0), Unlocked, 1, Present,
      0, 0)
  }

  // ----- the invariant -----

  ghost predicate Empty(p: Peer) {
    p.outbound == map[] && p.inbound == map[] && p.inUse == {} && p.pc == None
  }

  /** A connected peer has a peer connection, but for a pass about to make a new one. A peer that is not
      connected asks for nothing. After each wait of a connected peer a reply has come. Once the pass of
      `onDisconnected` is over, nothing is open. */
  ghost predicate Ok(x: Session) {
    && (x.peer.connected <==> x.leaving == Present)
    && (x.peer.connected ==> x.peer.pc.Some?)
    && (!x.peer.connected ==> x.peer.reqRead == [] && x.peer.reqWrite == [])
    && x.peer.inUse <= x.peer.tracks.Keys
    && x.offers <= x.replies + 1
    && (x.offers == x.replies + 1 ==> x.peer.awaiting || !x.peer.connected)
    && (x.peer.awaiting ==> x.phase.Offered? || x.phase == Waiting || !x.peer.connected)
    && (x.leaving == Working ==> x.phase != Unlocked)
    && (x.leaving == Working && (x.phase.Begun? || x.phase.Looped? || x.phase.Offered?) ==> !x.phase.reconnect)
    && (x.leaving == Working && !x.phase.Begun? ==>
          x.peer.outbound == map[] && x.peer.inbound == map[] && x.peer.inUse == {})
    && (x.leaving == Working && x.phase == Cleaned ==> x.peer.pc == None)
    && (x.leaving == Working ==> x.phase != Waiting)
    && (x.leaving == Gone ==> Empty(x.peer))
    && (x.leaving == Gone && (x.phase.Begun? || x.phase.Looped? || x.phase.Offered?) ==> !x.phase.reconnect)
  }

  lemma FreshIsOk(id: nat, pc: nat)
    ensures Ok(Fresh(id, pc))
  {
  }

  /** What the loops of a pass do, as far as the session goes. */
  lemma LoopsDo(p: Peer, s: Shared, reconnect: bool, env: Env)
    requires p.inUse <= p.tracks.Keys
    ensures var p' := Reconciled(p, s, reconnect, env).0;
            && p'.connected == p.connected && p'.reqRead == p.reqRead && p'.reqWrite == p.reqWrite
            && p'.awaiting == p.awaiting && p'.inUse <= p'.tracks.Keys
            && (reconnect ==> p'.pc.Some?) && (!reconnect ==> p'.pc == p.pc)
            && (p.reqRead == [] && p.reqWrite == [] ==> p'.outbound == map[] && p'.inbound == map[] && p'.inUse == {})
  {
    var (p1, s1) := Restarted(p, s, reconnect);
    var (p2, s2) := OpenAll(p1, s1, env);
    AllOpened(p1, s1, env);
    AllClosed(p2, s2, reconnect || !p.connected);
    if p.reqRead == [] && p.reqWrite == [] {
      var p' := Reconciled(p, s, reconnect, env).0;
      assert Topics(p.reqRead) == {} && WriteTopics(p.reqWrite) == {};
      assert p'.outbound.Keys == {} && p'.inbound.Keys == {};
    }
  }

  lemma LoopsOk(x: Session, env: Env, s: Shared)
    requires Ok(x)
    ensures Ok(Step(x, Loops(env, s)))
  {
    if x.phase.Begun? {
      LoopsDo(x.peer, s, x.phase.reconnect, env);
    }
  }

  /** The steps of the pass that holds the mutex. */
  lemma PassStepOk(x: Session, e: Event)
    requires Ok(x) && (e.Offer? || e.Decide? || e.Release?)
    ensures Ok(Step(x, e))
  {
    if e.Offer? {
      return;
    }
    if e.Decide? {
      return;
    }
  }

  lemma AskOk(x: Session, r: Request)
    requires Ok(x)
    ensures Ok(Step(x, Ask(r)))
  {
    var p := Asked(x.peer, r);
    assert p == x.peer.(reqRead := p.reqRead, reqWrite := p.reqWrite, needsRestart := p.needsRestart);
  }

  /** What other threads do. */
  lemma OtherStepOk(x: Session, e: Event)
    requires Ok(x) && (e.Queue? || e.Reply? || e.Flag?)
    ensures Ok(Step(x, e))
  {
    if e.Flag? {
      return;
    }
  }

  /** A pass takes the mutex. */
  lemma BeginOk(x: Session, e: Event)
    requires Ok(x) && (e.Begin? || e.BeginLast?)
    ensures Ok(Step(x, e))
  {
    if e.Begin? {
      return;
    }
  }

  lemma StepOk(x: Session, e: Event)
    requires Ok(x)
    ensures Ok(Step(x, e))
  {
    if e.Loops? {
      LoopsOk(x, e.env, e.shared);
    } else if e.Offer? || e.Decide? || e.Release? {
      PassStepOk(x, e);
    } else if e.Begin? || e.BeginLast? {
      BeginOk(x, e);
    } else if e.Ask? {
      AskOk(x, e.e);
    } else {
      OtherStepOk(x, e);
    }
  }

  lemma {:induction false} RunOk(x: Session, es: seq<Event>)
    requires Ok(x)
    ensures Ok(Run(x, es))
    decreases |es|
  {
    if es != [] {
      StepOk(x, es[0]);
      RunOk(Step(x, es[0]), es[1..]);
    }
  }

  // ----- what that means -----

  /** Under every interleaving a new offer is made only when a reply has ended the wait of every offer
      before, and a connected peer always has a peer connection. */
  lemma OfferSafety(id: nat, pc: nat, es: seq<Event>)
    ensures var x := Run(Fresh(id, pc), es);
            x.offers <= x.replies + 1 && (x.peer.connected ==> x.peer.pc.Some?)
    ensures var x := Run(Fresh(id, pc), es);
            Step(x, Offer).offers != x.offers ==> x.offers <= x.replies
  {
    FreshIsOk(id, pc);
    RunOk(Fresh(id, pc), es);
  }

  lemma {:induction false} GoneStays(x: Session, es: seq<Event>)
    requires x.leaving == Gone
    ensures Run(x, es).leaving == Gone
    decreases |es|
  {
    if es != [] {
      GoneStays(Step(x, es[0]), es[1..]);
    }
  }

  /** Once `onDisconnected` is over, whatever passes are still queued: no peer connection, no data
      channel, no track in use. */
  lemma NothingAfterDisconnect(id: nat, pc: nat, es: seq<Event>, later: seq<Event>)
    requires Run(Fresh(id, pc), es).leaving == Gone
    ensures var p := Run(Run(Fresh(id, pc), es), later).peer;
            p.pc == None && p.outbound == map[] && p.inbound == map[] && p.inUse == {}
  {
    var x := Run(Fresh(id, pc), es);
    FreshIsOk(id, pc);
    RunOk(Fresh(id, pc), es);
    GoneStays(x, later);
    RunOk(x, later);
  }

  // ----- onDisconnected is never held up -----

  /** The step that takes or continues a pass and is due now. A pass takes the mutex when it is free; which
      of those that wait is up to the scheduler. */
  predicate Due(x: Session, e: Event) {
    match e
    case Begin(_) => x.phase == Unlocked && x.queued > 0
    case BeginLast(_) => x.phase == Unlocked && x.leaving == Flagged
    case Loops(_, _) => x.phase.Begun?
    case Offer => x.phase.Looped?
    case Decide => x.phase.Offered?
    case Release => x.phase == Cleaned || (x.phase == Waiting && !(x.peer.awaiting && x.peer.connected))
    case _ => false
  }

  /** The steps that the pass that holds the mutex still has to make. */
  function StepsLeft(phase: Phase): nat {
    match phase
    case Unlocked => 0
    case Begun(_) => 4
    case Looped(_) => 3
    case Offered(_) => 2
    case Waiting => 1
    case Cleaned => 1
  }

  /** What `onDisconnected` has to wait for: the running pass, and its own. */
  function ToGo(x: Session): nat {
    if x.leaving == Gone then 0 else StepsLeft(x.phase) + if x.leaving == Flagged then 5 else 0
  }

  /** The steps that passes make in a schedule until `onDisconnected` is over. */
  function Made(x: Session, es: seq<Event>): nat
    decreases |es|
  {
    if es == [] then 0 else (if x.leaving != Gone && Due(x, es[0]) then 1 else 0) + Made(Step(x, es[0]), es[1..])
  }

  /** How many queued passes take the mutex before `onDisconnected` is over. */
  function Others(x: Session, es: seq<Event>): nat
    decreases |es|
  {
    if es == [] then 0
    else
      (if x.leaving != Gone && Due(x, es[0]) && es[0].Begin? then 1 else 0) + Others(Step(x, es[0]), es[1..])
  }

  /** While `onDisconnected` runs, each step of a pass brings it one step nearer to its end, but for one that
      lets another pass in front; nothing else does or undoes anything. */
  lemma StepToGo(x: Session, e: Event)
    requires Ok(x) && x.leaving != Present && x.leaving != Gone
    ensures Due(x, e) && !e.Begin? ==> ToGo(Step(x, e)) + 1 == ToGo(x)
    ensures Due(x, e) && e.Begin? ==> ToGo(Step(x, e)) + 1 == ToGo(x) + 5
    ensures !Due(x, e) ==> ToGo(Step(x, e)) == ToGo(x)
    ensures Step(x, e).leaving != Present
  {
    if e.Loops? && x.phase.Begun? {
      return;
    }
  }

  lemma StepProgress(x: Session, e: Event)
    requires Ok(x) && x.leaving != Present
    ensures var y := Step(x, e);
            && Ok(y) && y.leaving != Present
            && ToGo(y) + Made(x, [e]) == ToGo(x) + 5 * Others(x, [e])
  {
    StepOk(x, e);
    if x.leaving != Gone {
      StepToGo(x, e);
    }
    assert [e][1..] == [];
  }

  lemma {:induction false} DisconnectProgress(x: Session, es: seq<Event>)
    requires Ok(x) && x.leaving != Present
    ensures Ok(Run(x, es)) && Run(x, es).leaving != Present
    ensures ToGo(Run(x, es)) + Made(x, es) == ToGo(x) + 5 * Others(x, es)
    decreases |es|
  {
    if es != [] {
      StepProgress(x, es[0]);
      DisconnectProgress(Step(x, es[0]), es[1..]);
      assert [es[0]][1..] == [];
    }
  }

  /** Until `onDisconnected` is over there is something to go, and a step of a pass can be made. */
  lemma SomethingDue(x: Session, env: Env, s: Shared)
    requires Ok(x) && x.leaving != Present
    ensures x.leaving == Gone <==> ToGo(x) == 0
    ensures x.leaving != Gone ==>
              Due(x, Loops(env, s)) || Due(x, Offer) || Due(x, Decide) || Due(x, Release) || Due(x, BeginLast(env))
  {
  }

  /** `onDisconnected` is never held up, whatever the schedule. It is over exactly when the passes have made
      the steps that were due at the start, and five for each queued pass that got the mutex before it; no
      reply is among these steps. And until it is over, one of them can be made. */
  lemma DisconnectCompletes(x: Session, es: seq<Event>, env: Env, s: Shared)
    requires Ok(x) && x.leaving != Present
    ensures Run(x, es).leaving == Gone <==> Made(x, es) == ToGo(x) + 5 * Others(x, es)
    ensures Made(x, es) <= ToGo(x) + 5 * Others(x, es)
    ensures var y := Run(x, es);
            y.leaving != Gone ==>
              Due(y, Loops(env, s)) || Due(y, Offer) || Due(y, Decide) || Due(y, Release) || Due(y, BeginLast(env))
  {
    DisconnectProgress(x, es);
    SomethingDue(Run(x, es), env, s);
  }

  // ----- an offer is made, and a reply ends the wait -----

  /** The loops found negotiation needed. */
  lemma LoopsNegotiate(p: Peer, s: Shared, reconnect: bool, env: Env)
    requires p.inUse <= p.tracks.Keys && p.connected
    ensures var p' := Reconciled(p, s, reconnect, env).0;
            p'.negotiation <==>
              || reconnect || !(p'.outbound.Keys <= p.outbound.Keys) || !(p'.inbound.Keys <= p.inbound.Keys)
              || !(p'.tracks.Keys <= p.tracks.Keys)
  {
    var (p1, s1) := Restarted(p, s, reconnect);
    var (p2, s2) := OpenAll(p1, s1, env);
    AllOpened(p1, s1, env);
    AllClosed(p2, s2, reconnect || !p.connected);
    var p' := Reconciled(p, s, reconnect, env).0;
    if !reconnect {
      KeptKeys(p, p2, p', DataTopics(p.reqRead, env), MediaTopics(p.reqRead, env));
    }
  }

  lemma KeptKeys(p: Peer, q: Peer, p': Peer, data: set<string>, media: set<string>)
    requires data <= Topics(p.reqRead) && media <= Topics(p.reqRead)
    requires OpensAll(p.(negotiation := false), q, data, media, WriteTopics(p.reqWrite))
    requires p'.outbound == q.outbound - (q.outbound.Keys - Topics(q.reqRead))
    requires p'.inbound == q.inbound - (q.inbound.Keys - WriteTopics(q.reqWrite))
    requires p'.tracks == q.tracks && p'.negotiation == q.negotiation
    ensures p'.negotiation <==> !(p'.outbound.Keys <= p.outbound.Keys) || !(p'.inbound.Keys <= p.inbound.Keys)
                                || !(p'.tracks.Keys <= p.tracks.Keys)
  {
    assert data <= p'.outbound.Keys <= p.outbound.Keys + data;
    assert WriteTopics(p.reqWrite) <= p'.inbound.Keys <= p.inbound.Keys + WriteTopics(p.reqWrite);
    assert p'.tracks.Keys == p.tracks.Keys + media;
  }

  /** The pass of a connected peer that has the mutex makes an offer exactly when it is a reconnect or left a
      channel or a track that was not there; then it sends its message. Without an offer it ends at once, with
      one it waits, and ends with the reply. */
  lemma PassOffersAndWaits(x: Session, env: Env, s: Shared)
    requires Ok(x) && x.phase.Begun? && x.peer.connected
    ensures var z := Step(Step(Step(x, Loops(env, s)), Offer), Decide);
            var (p, p') := (x.peer, z.peer);
            && z.phase == Waiting
            && (z.offers == x.offers || z.offers == x.offers + 1)
            && (z.offers == x.offers + 1 <==>
                  || x.phase.reconnect || !(p'.outbound.Keys <= p.outbound.Keys) || !(p'.inbound.Keys <= p.inbound.Keys)
                  || !(p'.tracks.Keys <= p.tracks.Keys))
            && (Step(z, Release).phase == Unlocked <==> z.offers == x.offers)
            && (z.offers == x.offers + 1 ==> Step(z, Reply).replies == z.replies + 1)
            && Step(Step(z, Reply), Release).phase == Unlocked
  {
    LoopsNegotiate(x.peer, s, x.phase.reconnect, env);
    LoopsDo(x.peer, s, x.phase.reconnect, env);
    OfferedWaits(Step(x, Loops(env, s)));
  }

  lemma OfferedWaits(y: Session)
    requires y.phase.Looped? && y.peer.connected && !y.peer.awaiting
    ensures var z := Step(Step(y, Offer), Decide);
            && z.phase == Waiting && z.peer == y.peer.(awaiting := y.peer.negotiation)
            && z.offers == (if y.peer.negotiation then y.offers + 1 else y.offers)
            && (Step(z, Release).phase == Unlocked <==> z.offers == y.offers)
            && (y.peer.negotiation ==> Step(z, Reply).replies == z.replies + 1)
            && Step(Step(z, Reply), Release).phase == Unlocked
  {
  }

  lemma AskThenLoops(x: Session, r: Request, env: Env, env': Env, s: Shared)
    requires x.leaving == Present && x.phase == Unlocked
    ensures var (y, q) := (Step(Step(x, Ask(r)), Begin(env)), Asked(x.peer, r));
            && y.phase == Begun(IsReconnect(q, env))
            && Step(y, Loops(env', s)).peer == Reconciled(q, s, IsReconnect(q, env), env').0.(awaiting := false)
  {
  }

  lemma LoopsServe(p: Peer, reconnect: bool, env: Env, s: Shared)
    requires p.inUse <= p.tracks.Keys
    ensures var p' := Reconciled(p, s, reconnect, env).0;
            && p'.inbound.Keys == WriteTopics(p.reqWrite)
            && DataTopics(p.reqRead, env) <= p'.outbound.Keys <= DataTopics(p.reqRead, env) + Topics(p.reqRead)
            && MediaTopics(p.reqRead, env) <= p'.inUse <= MediaTopics(p.reqRead, env) + Topics(p.reqRead)
  {
    var (p1, s1) := Restarted(p, s, reconnect);
    LoopsReconcile(p1, s1, reconnect || !p.connected, env);
  }

  /** What a peer asked for is served by the next pass that takes the mutex, whichever that is: the pass sees the
      request, and its loops open or close what was asked for; a failure makes it a reconnect. */
  lemma AskIsServed(x: Session, r: Request, env: Env, env': Env, s: Shared)
    requires Ok(x) && x.leaving == Present && x.phase == Unlocked
    requires ReadsOnce(x.peer.reqRead) && WritesOnce(x.peer.reqWrite)
    ensures var y := Step(Step(x, Ask(r)), Begin(env));
            var p := Step(y, Loops(env', s)).peer;
            match r
            case AddRead(t) => (DataTopic(env', t) ==> t in p.outbound) && (MediaTopic(env', t) ==> t in p.inUse)
            case RemoveRead(t) => t !in p.outbound && t !in p.inUse
            case AddWrite(t, _) => t in p.inbound
            case RemoveWrite(t) => t !in p.inbound
            case PeerFailed => env.sioConnected ==> y.phase == Begun(true)
  {
    var q := Asked(x.peer, r);
    AskThenLoops(x, r, env, env', s);
    LoopsServe(q, IsReconnect(q, env), env', s);
    match r
    case AddRead(t) => ReadAsked(x.peer, t, env');
    case RemoveRead(t) =>
      RemoveReadRemoves(x.peer.reqRead, t);
      assert t !in Topics(q.reqRead);
    case AddWrite(t, msgType) => WriteAsked(x.peer, t, msgType);
    case RemoveWrite(t) => RemoveWriteRemoves(x.peer.reqWrite, t);
    case PeerFailed =>
  }

  lemma ReadAsked(p: Peer, t: string, env: Env)
    requires ReadsOnce(p.reqRead)
    ensures var ts := WithRead(p.reqRead, t);
            && (DataTopic(env, t) ==> t in DataTopics(ts, env)) && (MediaTopic(env, t) ==> t in MediaTopics(ts, env))
  {
    AddReadAdds(p.reqRead, t);
    assert t in Topics(WithRead(p.reqRead, t));
  }

  lemma WriteAsked(p: Peer, t: string, msgType: string)
    requires WritesOnce(p.reqWrite)
    ensures t in WriteTopics(WithWrite(p.reqWrite, t, msgType))
  {
    var reqs := WithWrite(p.reqWrite, t, msgType);
    AddWriteAdds(p.reqWrite, t, msgType);
    assert WriteRequest(t, msgType) in reqs;
    var k :| 0 <= k < |reqs| && reqs[k] == WriteRequest(t, msgType);
    assert reqs[k].topic == t;
  }
}
