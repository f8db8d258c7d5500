/** The loops of `runIntrospection` (src/introspection.cpp), proved against `GraphDiff.Pass`. */
module Introspector {
  import opened Options
  import opened GraphDiff
  import opened Endpoints

  // ----- the comparisons -----

  /** The two loops over the publishers of a node. */
  method PublishersChanged(old_: map<string, Pub>, tmp: map<string, Pub>) returns (changed: bool)
    ensures changed <==> old_ != tmp
  {
    changed := false;
    var rest := tmp.Keys;
    while rest != {}
      invariant rest <= tmp.Keys
      invariant changed <==> exists t :: t in tmp.Keys - rest && t !in old_
    {
      var t :| t in rest;
      if t !in old_ {
        changed := true;
      }
      rest := rest - {t};
    }
    assert changed <==> exists t :: t in tmp && t !in old_;
    rest := old_.Keys;
    while rest != {}
      invariant rest <= old_.Keys
      invariant changed <==> (exists t :: t in tmp && t !in old_)
                             || exists t :: t in old_.Keys - rest && (t !in tmp || tmp[t] != old_[t])
    {
      var t :| t in rest;
      if t !in tmp {
        changed := true;
      } else {
        var differs := PubDiffers(old_[t], tmp[t]);
        if differs {
          changed := true;
        }
      }
      rest := rest - {t};
    }
    if !changed {
      assert old_.Keys == tmp.Keys;
    }
  }

  method PubDiffers(was: Pub, tmp: Pub) returns (differs: bool)
    ensures differs <==> was != tmp
  {
    if tmp.msgType != was.msgType {
      return true;
    }
    if |tmp.qos| != |was.qos| {
      return true;
    }
    differs := false;
    for i := 0 to |tmp.qos|
      invariant differs <==> tmp.qos[..i] != was.qos[..i]
    {
      assert tmp.qos[..i + 1] == tmp.qos[..i] + [tmp.qos[i]] && was.qos[..i + 1] == was.qos[..i] + [was.qos[i]];
      if tmp.qos[i] != was.qos[i] {
        differs := true;
      }
    }
    assert tmp.qos[..|tmp.qos|] == tmp.qos && was.qos[..|was.qos|] == was.qos;
  }

  /** The two loops over the subscriptions of a node; the texts are not compared. */
  method SubscribersChanged(old_: map<string, Sub>, tmp: map<string, Sub>) returns (changed: bool)
    ensures changed <==> Plain(old_) != Plain(tmp)
  {
    changed := false;
    var rest := tmp.Keys;
    while rest != {}
      invariant rest <= tmp.Keys
      invariant changed <==> exists t :: t in tmp.Keys - rest && t !in old_
    {
      var t :| t in rest;
      if t !in old_ {
        changed := true;
      }
      rest := rest - {t};
    }
    assert changed <==> exists t :: t in tmp && t !in old_;
    rest := old_.Keys;
    while rest != {}
      invariant rest <= old_.Keys
      invariant changed <==> (exists t :: t in tmp && t !in old_)
                             || exists t :: t in old_.Keys - rest &&
                                  (t !in tmp || Profiles(tmp[t]) != Profiles(old_[t]))
    {
      var t :| t in rest;
      if t !in tmp {
        changed := true;
      } else {
        var differs := SubDiffers(old_[t], tmp[t]);
        if differs {
          changed := true;
        }
      }
      rest := rest - {t};
    }
    PlainDiffers(old_, tmp);
  }

  lemma PlainDiffers(old_: map<string, Sub>, tmp: map<string, Sub>)
    ensures Plain(old_) != Plain(tmp) <==>
            (exists t :: t in tmp && t !in old_)
            || exists t :: t in old_ && (t !in tmp || Profiles(tmp[t]) != Profiles(old_[t]))
  {
    var a, b := Plain(old_), Plain(tmp);
    assert a.Keys == old_.Keys && b.Keys == tmp.Keys;
    if t :| t in tmp && t !in old_ {
      assert t in b && t !in a;
    }
    if t :| t in old_ && (t !in tmp || Profiles(tmp[t]) != Profiles(old_[t])) {
      assert t in a && (t !in b || b[t] != a[t]);
    }
  }

  method SubDiffers(was: Sub, tmp: Sub) returns (differs: bool)
    ensures differs <==> Profiles(was) != Profiles(tmp)
  {
    ghost var a, b := Profiles(was), Profiles(tmp);
    if tmp.msgType != was.msgType {
      return true;
    }
    if |tmp.qos| != |was.qos| {
      assert |a.qos| != |b.qos|;
      return true;
    }
    differs := false;
    for i := 0 to |tmp.qos|
      invariant differs <==> exists k :: 0 <= k < i && tmp.qos[k].qos != was.qos[k].qos
    {
      if tmp.qos[i].qos != was.qos[i].qos {
        differs := true;
      }
    }
    if k :| 0 <= k < |tmp.qos| && tmp.qos[k].qos != was.qos[k].qos {
      assert a.qos[k] != b.qos[k];
    }
  }

  // ----- nodes and topics -----

  /** Lost nodes are removed, new ones added. */
  method UpdateNodes(nodes: map<string, Node>, seen: map<string, string>)
    returns (nodes': map<string, Node>, changed: bool)
    ensures nodes' == KnownNodes(nodes, seen)
    ensures changed <==> nodes'.Keys != nodes.Keys
  {
    nodes', changed := nodes, false;
    var rest := nodes.Keys;
    while rest != {}
      invariant rest <= nodes.Keys
      invariant nodes' == map n | n in nodes && (n in rest || n in seen) :: nodes[n]
      invariant changed <==> nodes'.Keys != nodes.Keys
    {
      var n :| n in rest;
      if n !in seen {
        nodes', changed := nodes' - {n}, true;
      }
      rest := rest - {n};
    }
    ghost var kept := nodes';
    rest := seen.Keys;
    while rest != {}
      invariant rest <= seen.Keys
      invariant nodes' == map n | n in seen && (n in nodes || n !in rest)
                            :: if n in nodes then nodes[n] else Node(seen[n], map[], map[], map[])
      invariant changed <==> kept.Keys != nodes.Keys || nodes'.Keys != kept.Keys
    {
      var n :| n in rest;
      if n !in nodes' {
        nodes', changed := nodes'[n := Node(seen[n], map[], map[], map[])], true;
      }
      rest := rest - {n};
    }
    if nodes'.Keys == nodes.Keys {
      assert kept.Keys == nodes.Keys;
    }
  }

  /** Topics no longer observed are removed, listed ones added. */
  method UpdateTopics(cfg: Config, topics: map<string, string>, seen: map<string, string>)
    returns (topics': map<string, string>, changed: bool)
    ensures topics' == KnownTopics(cfg, topics, seen)
    ensures changed <==> topics'.Keys != topics.Keys
  {
    topics', changed := topics, false;
    var rest := topics.Keys;
    while rest != {}
      invariant rest <= topics.Keys
      invariant topics' == map t | t in topics && (t in rest || t in seen) :: topics[t]
      invariant changed <==> topics'.Keys != topics.Keys
    {
      var t :| t in rest;
      if t !in seen {
        topics', changed := topics' - {t}, true;
      }
      rest := rest - {t};
    }
    ghost var kept := topics';
    rest := seen.Keys;
    while rest != {}
      invariant rest <= seen.Keys
      invariant topics' == map t | t in seen && (t in topics || (t !in rest && Listed(cfg, seen, t)))
                             :: if t in topics then topics[t] else seen[t]
      invariant changed <==> kept.Keys != topics.Keys || topics'.Keys != kept.Keys
    {
      var t :| t in rest;
      if t !in cfg.topics && seen[t] !in cfg.topics && t !in topics' {
        topics', changed := topics'[t := seen[t]], true;
      }
      rest := rest - {t};
    }
    if topics'.Keys == topics.Keys {
      assert kept.Keys == topics.Keys;
    }
  }

  /** The services observed of one node. */
  method UpdateServices(cfg: Config, services: map<string, string>, seen: map<string, string>)
    returns (services': map<string, string>, changed: bool)
    ensures services' == NewServices(cfg, services, seen)
    ensures changed <==> services' != services
  {
    services', changed := services, false;
    ghost var done: map<string, string> := map[];
    var rest := seen.Keys;
    while rest != {}
      invariant rest <= seen.Keys && services' == services + done
      invariant forall s :: s in done <==> s in seen && s !in rest && Allowed(cfg, seen, s)
      invariant forall s :: s in done ==> done[s] == seen[s]
      invariant changed <==> exists s :: s in done && (s !in services || services[s] != done[s])
    {
      var s :| s in rest;
      rest := rest - {s};
      if s in cfg.services || seen[s] in cfg.services {
        continue;
      }
      AddService(services, done, s, seen[s]);
      done := done[s := seen[s]];
      if s !in services' {
        services', changed := services'[s := seen[s]], true;
      } else if services'[s] != seen[s] {
        services', changed := services'[s := seen[s]], true;
      }
    }
    assert done == map s | s in seen && Allowed(cfg, seen, s) :: seen[s];
    ServicesDiffer(services, done);
  }

  predicate Allowed(cfg: Config, seen: map<string, string>, s: string) {
    s in seen && s !in cfg.services && seen[s] !in cfg.services
  }

  lemma AddService(services: map<string, string>, done: map<string, string>, s: string, msgType: string)
    requires s !in done
    ensures services + done[s := msgType] == (services + done)[s := msgType]
    ensures s in services && services[s] == msgType ==> services + done[s := msgType] == services + done
    ensures forall u :: u in done ==> done[s := msgType][u] == done[u]
  {
  }

  lemma ServicesDiffer(services: map<string, string>, done: map<string, string>)
    ensures services + done != services <==> exists s :: s in done && (s !in services || services[s] != done[s])
  {
    if s :| s in done && (s !in services || services[s] != done[s]) {
      assert s in services + done && (services + done)[s] == done[s];
    } else {
      assert services + done == services;
    }
  }

  // ----- endpoints -----

  /** `tmp_publishers` and `tmp_subscribers` of every node are cleared. */
  method Reset(ghost cfg: Config, nodes: set<string>, ghost topics: map<string, string>, ghost o: Observation)
    returns (pubs: map<string, map<string, Pub>>, subs: map<string, map<string, Sub>>)
    ensures CollectedPubs(cfg, nodes, topics, o, {}, pubs) && CollectedSubs(cfg, nodes, topics, o, {}, subs)
  {
    pubs, subs := map n | n in nodes :: map[], map n | n in nodes :: map[];
    NothingCollected(cfg, nodes, topics, o, pubs, subs);
  }

  /** The loop over the observed topics: the endpoints of every known node. */
  method CollectEndpoints(cfg: Config, nodes: set<string>, topics: map<string, string>, o: Observation)
    returns (pubs: map<string, map<string, Pub>>, subs: map<string, map<string, Sub>>)
    ensures pubs.Keys == nodes && forall n :: n in nodes ==> pubs[n] == SeenPubs(cfg, topics, o, n)
    ensures subs.Keys == nodes && forall n :: n in nodes ==> subs[n] == SeenSubs(cfg, topics, o, n)
  {
    pubs, subs := Reset(cfg, nodes, topics, o);
    var rest := topics.Keys;
    ghost var done := {};
    while rest != {}
      invariant rest !! done && rest + done == topics.Keys
      invariant CollectedPubs(cfg, nodes, topics, o, done, pubs) && CollectedSubs(cfg, nodes, topics, o, done, subs)
      decreases rest
    {
      var t :| t in rest;
      pubs, subs := CollectNext(cfg, nodes, topics, o, done, t, pubs, subs);
      rest, done := rest - {t}, done + {t};
    }
    AllPubsCollected(cfg, nodes, topics, o, done, pubs);
    AllSubsCollected(cfg, nodes, topics, o, done, subs);
  }

  // ----- the nodes -----

  /** `checkSubscriberQos`: the texts of every subscription of a node are set anew. */
  method CheckSubscriberQos(subs: map<string, Sub>, check: Check) returns (subs': map<string, Sub>)
    ensures subs' == Checked(subs, check)
  {
    subs' := subs;
    var rest := subs.Keys;
    while rest != {}
      invariant rest <= subs.Keys && subs'.Keys == subs.Keys
      invariant forall t :: t in subs ==> subs'[t] == if t in rest then subs[t] else CheckedSub(t, subs[t], check)
    {
      var t :| t in rest;
      subs' := subs'[t := CheckedSub(t, subs[t], check)];
      rest := rest - {t};
    }
  }

  /** A node that takes over what was collected. */
  function Took(node: Node, pubs: map<string, Pub>, subs: map<string, Sub>, check: Check): Node {
    node.(publishers := pubs, subscribers := NewSubs(node.subscribers, subs, check))
  }

  predicate Differs(node: Node, pubs: map<string, Pub>, subs: map<string, Sub>) {
    node.publishers != pubs || Plain(node.subscribers) != Plain(subs)
  }

  /** The nodes `done` took over what was collected; `changed` says whether one of them differed. */
  ghost predicate Compared(nodes: map<string, Node>, check: Check, pubs: map<string, map<string, Pub>>,
                           subs: map<string, map<string, Sub>>, done: set<string>, nodes': map<string, Node>,
                           changed: bool)
    requires pubs.Keys == nodes.Keys && subs.Keys == nodes.Keys
  {
    && nodes'.Keys == nodes.Keys
    && (forall n :: n in nodes ==> nodes'[n] == if n in done then Took(nodes[n], pubs[n], subs[n], check) else nodes[n])
    && (changed <==> exists n :: n in nodes && n in done && Differs(nodes[n], pubs[n], subs[n]))
  }

  lemma ComparedNext(nodes: map<string, Node>, check: Check, pubs: map<string, map<string, Pub>>,
                     subs: map<string, map<string, Sub>>, done: set<string>, nodes': map<string, Node>,
                     changed: bool, n: string)
    requires pubs.Keys == nodes.Keys && subs.Keys == nodes.Keys && n in nodes && n !in done
    requires Compared(nodes, check, pubs, subs, done, nodes', changed)
    ensures Compared(nodes, check, pubs, subs, done + {n}, nodes'[n := Took(nodes[n], pubs[n], subs[n], check)],
                     changed || Differs(nodes[n], pubs[n], subs[n]))
  {
  }

  /** The comparison loop: every node takes over what was collected; a node whose subscriptions changed has
      them checked. */
  method CompareNodes(nodes: map<string, Node>, check: Check, pubs: map<string, map<string, Pub>>,
                      subs: map<string, map<string, Sub>>)
    returns (nodes': map<string, Node>, changed: bool)
    requires pubs.Keys == nodes.Keys && subs.Keys == nodes.Keys
    ensures nodes'.Keys == nodes.Keys && forall n :: n in nodes ==> nodes'[n] == Took(nodes[n], pubs[n], subs[n], check)
    ensures changed <==> exists n :: n in nodes && Differs(nodes[n], pubs[n], subs[n])
  {
    nodes', changed := nodes, false;
    var rest := nodes.Keys;
    ghost var done := {};
    while rest != {}
      invariant rest !! done && rest + done == nodes.Keys
      invariant Compared(nodes, check, pubs, subs, done, nodes', changed)
      decreases rest
    {
      var n :| n in rest;
      ComparedNext(nodes, check, pubs, subs, done, nodes', changed, n);
      var node, differs := CompareNode(nodes[n], pubs[n], subs[n], check);
      nodes' := nodes'[n := node];
      if differs {
        changed := true;
      }
      rest, done := rest - {n}, done + {n};
    }
  }

  /** One round of the comparison loop. */
  method CompareNode(node: Node, pubs: map<string, Pub>, subs: map<string, Sub>, check: Check)
    returns (node': Node, changed: bool)
    ensures node' == Took(node, pubs, subs, check)
    ensures changed <==> Differs(node, pubs, subs)
  {
    var pubsChanged := PublishersChanged(node.publishers, pubs);
    var subsChanged := SubscribersChanged(node.subscribers, subs);
    var checked := subs;
    if subsChanged {
      checked := CheckSubscriberQos(subs, check);
    }
    return node.(publishers := pubs, subscribers := checked), subsChanged || pubsChanged;
  }

  /** The loop over the services. */
  method CompareServices(cfg: Config, nodes: map<string, Node>, o: Observation)
    returns (nodes': map<string, Node>, changed: bool)
    ensures nodes'.Keys == nodes.Keys
    ensures forall n :: n in nodes ==> nodes'[n] == Served(cfg, o, n, nodes[n])
    ensures changed <==> exists n :: n in nodes && nodes'[n] != nodes[n]
  {
    nodes', changed := nodes, false;
    var rest := nodes.Keys;
    while rest != {}
      invariant rest <= nodes.Keys && nodes'.Keys == nodes.Keys
      invariant forall n :: n in nodes ==> nodes'[n] == if n in rest then nodes[n] else Served(cfg, o, n, nodes[n])
      invariant changed <==> exists n :: n in nodes.Keys - rest && Served(cfg, o, n, nodes[n]) != nodes[n]
    {
      var n :| n in rest;
      rest := rest - {n};
      if n !in o.services {
        continue;
      }
      var services, differs := UpdateServices(cfg, nodes[n].services, o.services[n]);
      nodes' := nodes'[n := nodes[n].(services := services)];
      if differs {
        changed := true;
      }
    }
  }

  function Served(cfg: Config, o: Observation, n: string, node: Node): Node {
    node.(services := if n in o.services then NewServices(cfg, node.services, o.services[n]) else node.services)
  }

  // ----- the object -----

  /** `BridgeSocket`, as far as reports go; `told` is the last report that was handed to the client. */
  class BridgeSocket {
    var connected: bool
    var told: map<string, Node>

    constructor ()
      ensures !connected && told == map[]
    {
      connected, told := false, map[];
    }

    method Emit(nodes: map<string, Node>)
      modifies this`told
      ensures told == if connected then nodes else old(told)
    {
      if !connected {
        return;
      }
      told := nodes;
    }

    method OnSocketOpen(introspection: Introspection)
      requires introspection.socket == this
      modifies this
      ensures introspection.State() == Step(introspection.cfg, old(introspection.State()), SocketOpened)
    {
      connected := true;
      introspection.Report();
    }

    method OnDisconnected(ghost introspection: Introspection)
      requires introspection.socket == this
      modifies this`connected
      ensures introspection.State() == Step(introspection.cfg, old(introspection.State()), SocketClosed)
    {
      connected := false;
    }
  }

  class Introspection {
    const cfg: Config
    const socket: BridgeSocket
    var discoveredNodes: map<string, Node>
    var discoveredTopics: map<string, string>

    ghost function State(): Graph
      reads this, socket
    {
      Graph(discoveredNodes, discoveredTopics, socket.connected, socket.told)
    }

    constructor (cfg: Config, socket: BridgeSocket)
      ensures this.cfg == cfg && this.socket == socket
      ensures State() == Graph(map[], map[], socket.connected, socket.told)
    {
      this.cfg, this.socket, discoveredNodes, discoveredTopics := cfg, socket, map[], map[];
    }

    method RunIntrospection(o: Observation, check: Check)
      modifies this, socket`told
      ensures State() == Step(cfg, old(State()), Observed(o, check))
    {
      if o.nodes.None? {
        return;
      }
      var known, nodesChanged := UpdateNodes(discoveredNodes, o.nodes.value);
      if o.topics.None? {
        discoveredNodes := known;
        return;
      }
      var topics, topicsChanged := UpdateTopics(cfg, discoveredTopics, o.topics.value);
      var nodes, changed := UpdateGraph(cfg, known, o.topics.value, o, check);
      discoveredNodes, discoveredTopics := nodes, topics;
      if nodesChanged || topicsChanged || changed {
        ReportNodes();
      }
    }

    method ReportNodes()
      modifies socket`told
      ensures socket.told == if socket.connected then discoveredNodes else old(socket.told)
    {
      socket.Emit(discoveredNodes);
    }

    /** `report`, as far as nodes go. */
    method Report()
      modifies socket`told
      ensures socket.told == if socket.connected then discoveredNodes else old(socket.told)
    {
      ReportNodes();
    }
  }

  /** What a pass does to the known nodes. */
  method UpdateGraph(cfg: Config, known: map<string, Node>, seen: map<string, string>, o: Observation, check: Check)
    returns (nodes: map<string, Node>, changed: bool)
    ensures nodes == NewNodes(cfg, known, seen, o, check)
    ensures changed <==> AnyChanged(known, nodes)
  {
    var pubs, subs := CollectEndpoints(cfg, known.Keys, seen, o);
    var compared, endpointsChanged := CompareNodes(known, check, pubs, subs);
    var served, servicesChanged := CompareServices(cfg, compared, o);
    PassNodes(cfg, known, pubs, subs, compared, served, seen, o, check);
    return served, endpointsChanged || servicesChanged;
  }

  lemma NodePassed(cfg: Config, n: string, node: Node, seen: map<string, string>, o: Observation, check: Check)
    ensures var (pubs, subs) := (SeenPubs(cfg, seen, o, n), SeenSubs(cfg, seen, o, n));
            var compared := Took(node, pubs, subs, check);
            var served := Served(cfg, o, n, compared);
            && served == NewNode(cfg, seen, o, n, node, check)
            && (Changed(node, served) <==> Differs(node, pubs, subs) || served != compared)
  {
    NewSubsPlain(node.subscribers, SeenSubs(cfg, seen, o, n), check);
  }

  ghost predicate Handled(cfg: Config, known: map<string, Node>, pubs: map<string, map<string, Pub>>,
                          subs: map<string, map<string, Sub>>, compared: map<string, Node>, nodes: map<string, Node>,
                          seen: map<string, string>, o: Observation, check: Check, n: string)
    requires n in pubs && n in known && n in subs && n in compared && n in nodes
  {
    && pubs[n] == SeenPubs(cfg, seen, o, n) && subs[n] == SeenSubs(cfg, seen, o, n)
    && compared[n] == Took(known[n], pubs[n], subs[n], check) && nodes[n] == Served(cfg, o, n, compared[n])
  }

  lemma NodeHandled(cfg: Config, known: map<string, Node>, pubs: map<string, map<string, Pub>>,
                    subs: map<string, map<string, Sub>>, compared: map<string, Node>, nodes: map<string, Node>,
                    seen: map<string, string>, o: Observation, check: Check, n: string)
    requires n in pubs && n in known && n in subs && n in compared && n in nodes
    requires Handled(cfg, known, pubs, subs, compared, nodes, seen, o, check, n)
    ensures nodes[n] == NewNode(cfg, seen, o, n, known[n], check)
    ensures Changed(known[n], nodes[n]) <==> Differs(known[n], pubs[n], subs[n]) || nodes[n] != compared[n]
  {
    NodePassed(cfg, n, known[n], seen, o, check);
  }

  lemma PassNodes(cfg: Config, known: map<string, Node>, pubs: map<string, map<string, Pub>>,
                  subs: map<string, map<string, Sub>>, compared: map<string, Node>, nodes: map<string, Node>,
                  seen: map<string, string>, o: Observation, check: Check)
    requires known.Keys == pubs.Keys == subs.Keys == compared.Keys == nodes.Keys
    requires forall n :: n in known ==> Handled(cfg, known, pubs, subs, compared, nodes, seen, o, check, n)
    ensures nodes == NewNodes(cfg, known, seen, o, check)
    ensures AnyChanged(known, nodes) <==>
              (exists n :: n in known && Differs(known[n], pubs[n], subs[n]))
              || exists n :: n in compared && nodes[n] != compared[n]
  {
    forall n | n in known
      ensures Changed(known[n], nodes[n]) <==> Differs(known[n], pubs[n], subs[n]) || nodes[n] != compared[n]
    {
      NodeHandled(cfg, known, pubs, subs, compared, nodes, seen, o, check, n);
    }
    SomeChanged(known, pubs, subs, compared, nodes);
    NodesAre(cfg, known, pubs, subs, compared, nodes, seen, o, check);
  }

  lemma NodesAre(cfg: Config, known: map<string, Node>, pubs: map<string, map<string, Pub>>,
                 subs: map<string, map<string, Sub>>, compared: map<string, Node>, nodes: map<string, Node>,
                 seen: map<string, string>, o: Observation, check: Check)
    requires known.Keys == pubs.Keys == subs.Keys == compared.Keys == nodes.Keys
    requires forall n :: n in known ==> Handled(cfg, known, pubs, subs, compared, nodes, seen, o, check, n)
    ensures nodes == NewNodes(cfg, known, seen, o, check)
  {
    forall n | n in known
      ensures nodes[n] == NewNode(cfg, seen, o, n, known[n], check)
    {
      NodeHandled(cfg, known, pubs, subs, compared, nodes, seen, o, check, n);
    }
    NewNodesAre(cfg, known, seen, o, check, nodes);
  }

  lemma SomeChanged(known: map<string, Node>, pubs: map<string, map<string, Pub>>, subs: map<string, map<string, Sub>>,
                    compared: map<string, Node>, nodes: map<string, Node>)
    requires known.Keys == pubs.Keys == subs.Keys == compared.Keys == nodes.Keys
    requires forall n :: n in known ==>
             (Changed(known[n], nodes[n]) <==> Differs(known[n], pubs[n], subs[n]) || nodes[n] != compared[n])
    ensures AnyChanged(known, nodes) <==>
              (exists n :: n in known && Differs(known[n], pubs[n], subs[n]))
              || exists n :: n in compared && nodes[n] != compared[n]
  {
  }
}
