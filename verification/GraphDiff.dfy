/** The change detector of `runIntrospection` (src/introspection.cpp): what one pass makes of the observed
    graph, and when it reports. */
module GraphDiff {
  import opened Options

  /** A QoS profile is opaque. */
  type Qos = int

  datatype Pub = Pub(msgType: string, qos: seq<Qos>)

  /** A subscription with the texts of its QoS check. */
  datatype SubQos = SubQos(qos: Qos, error: string, warning: string)

  datatype Sub = Sub(msgType: string, qos: seq<SubQos>)

  datatype Node = Node(
    ns: string, publishers: map<string, Pub>, subscribers: map<string, Sub>, services: map<string, string>)

  datatype Endpoint = Endpoint(node: string, qos: Qos)

  /** What the queries return: the nodes with their namespaces, the topics with their first types, the
      endpoints of a topic, the services of a node with their first types; nothing when a query failed. */
  datatype Observation = Observation(
    nodes: Option<map<string, string>>, topics: Option<map<string, string>>,
    pubs: map<string, seq<Endpoint>>, subs: map<string, seq<Endpoint>>, services: map<string, map<string, string>>)

  /** Topics and services are blacklisted by name or by type. */
  datatype Config = Config(topics: set<string>, services: set<string>)

  /** What `checkSubscriberQos` finds for a subscription of a topic: an error and a warning. */
  type Check = (string, Qos) -> (string, string)

  // ----- what is observed of one node -----

  predicate Listed(cfg: Config, topics: map<string, string>, t: string) {
    t in topics && t !in cfg.topics && topics[t] !in cfg.topics
  }

  /** The profiles of a node's endpoints, in order. */
  function Of(es: seq<Endpoint>, n: string): seq<Qos>
    decreases |es|
  {
    if es == [] then []
    else Of(es[..|es| - 1], n) + if es[|es| - 1].node == n then [es[|es| - 1].qos] else []
  }

  /** Endpoints of a topic are seen when the topic is listed and the query worked. */
  predicate PubsSeen(cfg: Config, topics: map<string, string>, o: Observation, t: string) {
    Listed(cfg, topics, t) && t in o.pubs
  }

  /** When the query for publishers fails, that for subscribers is skipped. */
  predicate SubsSeen(cfg: Config, topics: map<string, string>, o: Observation, t: string) {
    PubsSeen(cfg, topics, o, t) && t in o.subs
  }

  function SeenPubs(cfg: Config, topics: map<string, string>, o: Observation, n: string): map<string, Pub> {
    map t | t in topics && PubsSeen(cfg, topics, o, t) && Of(o.pubs[t], n) != [] :: Pub(topics[t], Of(o.pubs[t], n))
  }

  function Unchecked(qs: seq<Qos>): seq<SubQos>
    decreases |qs|
  {
    if qs == [] then [] else Unchecked(qs[..|qs| - 1]) + [SubQos(qs[|qs| - 1], "", "")]
  }

  function SeenSubs(cfg: Config, topics: map<string, string>, o: Observation, n: string): map<string, Sub> {
    map t | t in topics && SubsSeen(cfg, topics, o, t) && Of(o.subs[t], n) != []
      :: Sub(topics[t], Unchecked(Of(o.subs[t], n)))
  }

  // ----- what changed -----

  function Profiles(s: Sub): Pub {
    Pub(s.msgType, seq(|s.qos|, k requires 0 <= k < |s.qos| => s.qos[k].qos))
  }

  /** Subscriptions without the texts. */
  function Plain(subs: map<string, Sub>): map<string, Pub> {
    map t | t in subs :: Profiles(subs[t])
  }

  function CheckedSub(t: string, s: Sub, check: Check): Sub {
    Sub(s.msgType, seq(|s.qos|, k requires 0 <= k < |s.qos| =>
      SubQos(s.qos[k].qos, check(t, s.qos[k].qos).0, check(t, s.qos[k].qos).1)))
  }

  function Checked(subs: map<string, Sub>, check: Check): map<string, Sub> {
    map t | t in subs :: CheckedSub(t, subs[t], check)
  }

  /** The subscriptions are checked only when they changed. */
  function NewSubs(old_: map<string, Sub>, seen: map<string, Sub>, check: Check): map<string, Sub> {
    if Plain(old_) != Plain(seen) then Checked(seen, check) else seen
  }

  /** Services are added or get a new type; none is ever removed. */
  function NewServices(cfg: Config, old_: map<string, string>, seen: map<string, string>): map<string, string> {
    old_ + map s | s in seen && s !in cfg.services && seen[s] !in cfg.services :: seen[s]
  }

  // ----- a pass -----

  /** `nodes` and `topics`, the flag `connected` of `BridgeSocket`, and what the last report of the nodes that
      `emit` did not ignore has told. */
  datatype Graph = Graph(
    nodes: map<string, Node>, topics: map<string, string>, connected: bool, reported: map<string, Node>)

  /** `emit` ignores a report while the socket is not connected. */
  function Emitted(g: Graph, nodes: map<string, Node>): map<string, Node> {
    if g.connected then nodes else g.reported
  }

  /** Lost nodes go, new ones come without anything. */
  function KnownNodes(nodes: map<string, Node>, seen: map<string, string>): map<string, Node> {
    map n | n in seen :: if n in nodes then nodes[n] else Node(seen[n], map[], map[], map[])
  }

  /** A topic keeps the type it was discovered with. */
  function KnownTopics(cfg: Config, topics: map<string, string>, seen: map<string, string>): map<string, string> {
    map t | t in seen && (t in topics || Listed(cfg, seen, t)) :: if t in topics then topics[t] else seen[t]
  }

  function NewNode(cfg: Config, topics: map<string, string>, o: Observation, n: string, node: Node,
                   check: Check): Node {
    Node(node.ns, SeenPubs(cfg, topics, o, n), NewSubs(node.subscribers, SeenSubs(cfg, topics, o, n), check),
         if n in o.services then NewServices(cfg, node.services, o.services[n]) else node.services)
  }

  function NewNodes(cfg: Config, nodes: map<string, Node>, topics: map<string, string>, o: Observation,
                    check: Check): map<string, Node> {
    map n | n in nodes :: NewNode(cfg, topics, o, n, nodes[n], check)
  }

  /** The flags that a node raises. */
  predicate Changed(a: Node, b: Node) {
    a.publishers != b.publishers || Plain(a.subscribers) != Plain(b.subscribers) || a.services != b.services
  }

  predicate AnyChanged(nodes: map<string, Node>, nodes': map<string, Node>) {
    exists n :: n in nodes && n in nodes' && Changed(nodes[n], nodes'[n])
  }

  /** A report is made when nodes came or went, when topics did, or when a node changed. */
  predicate Reports(nodes: map<string, Node>, known: map<string, Node>, nodes': map<string, Node>,
                    topics: map<string, string>, topics': map<string, string>) {
    known.Keys != nodes.Keys || topics'.Keys != topics.Keys || AnyChanged(known, nodes')
  }

  predicate Complete(o: Observation) {
    o.nodes.Some? && o.topics.Some?
  }

  /** A complete pass makes a report, whether or not it gets through. */
  predicate MakesReport(cfg: Config, g: Graph, o: Observation, check: Check)
    requires Complete(o)
  {
    var known := KnownNodes(g.nodes, o.nodes.value);
    Reports(g.nodes, known, NewNodes(cfg, known, o.topics.value, o, check),
            g.topics, KnownTopics(cfg, g.topics, o.topics.value))
  }

  function Pass(cfg: Config, g: Graph, o: Observation, check: Check): Graph {
    if o.nodes.None? then g
    else
      var known := KnownNodes(g.nodes, o.nodes.value);
      if o.topics.None? then g.(nodes := known)
      else
        var nodes := NewNodes(cfg, known, o.topics.value, o, check);
        Graph(nodes, KnownTopics(cfg, g.topics, o.topics.value), g.connected,
          if MakesReport(cfg, g, o, check) then Emitted(g, nodes) else g.reported)
  }

  // ----- what that means -----

  /** A node without the texts of its QoS checks. */
  function Bare(node: Node): (string, map<string, Pub>, map<string, Pub>, map<string, string>) {
    (node.ns, node.publishers, Plain(node.subscribers), node.services)
  }

  /** The same nodes, texts aside. */
  ghost predicate Same(a: map<string, Node>, b: map<string, Node>) {
    a.Keys == b.Keys && forall n :: n in a ==> Bare(a[n]) == Bare(b[n])
  }

  lemma CheckedPlain(t: string, s: Sub, check: Check)
    ensures Profiles(CheckedSub(t, s, check)) == Profiles(s)
  {
  }

  lemma NewSubsPlain(old_: map<string, Sub>, seen: map<string, Sub>, check: Check)
    ensures Plain(NewSubs(old_, seen, check)) == Plain(seen)
  {
    forall t | t in seen
      ensures Profiles(CheckedSub(t, seen[t], check)) == Profiles(seen[t])
    {
      CheckedPlain(t, seen[t], check);
    }
  }

  /** After a complete pass every node publishes and subscribes to exactly what was observed of it. */
  lemma StoredIsObserved(cfg: Config, g: Graph, o: Observation, check: Check, n: string)
    requires Complete(o)
    ensures var g' := Pass(cfg, g, o, check);
            n in g'.nodes <==> n in o.nodes.value
    ensures var g' := Pass(cfg, g, o, check);
            n in g'.nodes ==> g'.nodes[n].publishers == SeenPubs(cfg, o.topics.value, o, n)
                              && Plain(g'.nodes[n].subscribers) == Plain(SeenSubs(cfg, o.topics.value, o, n))
  {
    if n in o.nodes.value {
      var known := KnownNodes(g.nodes, o.nodes.value);
      NewSubsPlain(known[n].subscribers, SeenSubs(cfg, o.topics.value, o, n), check);
    }
  }

  lemma ChangedIsBare(a: Node, b: Node)
    requires a.ns == b.ns
    ensures Changed(a, b) <==> Bare(a) != Bare(b)
  {
  }

  lemma AnyChangedIff(nodes: map<string, Node>, nodes': map<string, Node>)
    requires nodes'.Keys == nodes.Keys && forall n :: n in nodes ==> nodes'[n].ns == nodes[n].ns
    ensures AnyChanged(nodes, nodes') <==> !Same(nodes, nodes')
  {
    forall n | n in nodes
      ensures Changed(nodes[n], nodes'[n]) <==> Bare(nodes[n]) != Bare(nodes'[n])
    {
      ChangedIsBare(nodes[n], nodes'[n]);
    }
  }

  lemma SameMap(a: map<string, Node>, b: map<string, Node>)
    requires a.Keys == b.Keys && forall n :: n in a ==> a[n] == b[n]
    ensures a == b
  {
  }

  lemma NewNodesAre(cfg: Config, nodes: map<string, Node>, topics: map<string, string>, o: Observation, check: Check,
                    r: map<string, Node>)
    requires r.Keys == nodes.Keys && forall n :: n in nodes ==> r[n] == NewNode(cfg, topics, o, n, nodes[n], check)
    ensures r == NewNodes(cfg, nodes, topics, o, check)
  {
    SameMap(r, NewNodes(cfg, nodes, topics, o, check));
  }

  lemma NewNodesKeep(cfg: Config, nodes: map<string, Node>, topics: map<string, string>, o: Observation, check: Check)
    ensures var nodes' := NewNodes(cfg, nodes, topics, o, check);
            nodes'.Keys == nodes.Keys && forall n :: n in nodes ==> nodes'[n].ns == nodes[n].ns
  {
  }

  lemma ReportsIff(nodes: map<string, Node>, known: map<string, Node>, nodes': map<string, Node>,
                   topics: map<string, string>, topics': map<string, string>)
    requires known.Keys == nodes.Keys ==> known == nodes
    requires nodes'.Keys == known.Keys && forall n :: n in known ==> nodes'[n].ns == known[n].ns
    ensures Reports(nodes, known, nodes', topics, topics') <==> !(Same(nodes, nodes') && topics'.Keys == topics.Keys)
  {
    AnyChangedIff(known, nodes');
  }

  lemma KnownReportsIff(nodes: map<string, Node>, seen: map<string, string>, nodes': map<string, Node>,
                        topics: map<string, string>, topics': map<string, string>)
    requires var known := KnownNodes(nodes, seen);
             nodes'.Keys == known.Keys && forall n :: n in known ==> nodes'[n].ns == known[n].ns
    ensures Reports(nodes, KnownNodes(nodes, seen), nodes', topics, topics') <==>
            !(Same(nodes, nodes') && topics'.Keys == topics.Keys)
  {
    if seen.Keys == nodes.Keys {
      KnownSame(nodes, seen);
    }
    ReportsIff(nodes, KnownNodes(nodes, seen), nodes', topics, topics');
  }

  lemma MakesReportIff(cfg: Config, g: Graph, o: Observation, check: Check)
    requires Complete(o)
    ensures var nodes := NewNodes(cfg, KnownNodes(g.nodes, o.nodes.value), o.topics.value, o, check);
            MakesReport(cfg, g, o, check) <==>
            !(Same(g.nodes, nodes) && KnownTopics(cfg, g.topics, o.topics.value).Keys == g.topics.Keys)
  {
    var known := KnownNodes(g.nodes, o.nodes.value);
    var nodes := NewNodes(cfg, known, o.topics.value, o, check);
    NewNodesKeep(cfg, known, o.topics.value, o, check);
    KnownReportsIff(g.nodes, o.nodes.value, nodes, g.topics, KnownTopics(cfg, g.topics, o.topics.value));
  }

  /** A complete pass makes a report exactly when the topics are not the same or the nodes are not, texts
      aside; and the report gets through exactly when the socket is connected. */
  lemma SilentIffSame(cfg: Config, g: Graph, o: Observation, check: Check)
    requires Complete(o)
    ensures var g' := Pass(cfg, g, o, check);
            MakesReport(cfg, g, o, check) <==> !(Same(g.nodes, g'.nodes) && g'.topics.Keys == g.topics.Keys)
    ensures var g' := Pass(cfg, g, o, check);
            g'.reported == if g.connected && MakesReport(cfg, g, o, check) then g'.nodes else g.reported
  {
    MakesReportIff(cfg, g, o, check);
  }

  lemma KnownSame(nodes: map<string, Node>, seen: map<string, string>)
    requires seen.Keys == nodes.Keys
    ensures KnownNodes(nodes, seen) == nodes
  {
  }

  /** The nodes came or went while the query for topics failed: their flag is lost. */
  predicate FlagLost(g: Graph, o: Observation) {
    o.nodes.Some? && o.topics.None? && o.nodes.value.Keys != g.nodes.Keys
  }

  /** The last report tells the nodes as they are, texts aside. */
  ghost predicate Current(g: Graph) {
    Same(g.reported, g.nodes)
  }

  /** Passes, and what happens to the socket. Each pass has its own `check`, because that depends on the
      publishers of the moment. */
  datatype Event = Observed(o: Observation, check: Check) | SocketOpened | SocketClosed

  function Step(cfg: Config, g: Graph, e: Event): Graph {
    match e
    case Observed(o, check) => Pass(cfg, g, o, check)
    case SocketOpened => g.(connected := true, reported := g.nodes)
    case SocketClosed => g.(connected := false)
  }

  /** A flag is lost while somebody listens. */
  predicate LosesFlag(g: Graph, e: Event) {
    e.Observed? && g.connected && FlagLost(g, e.o)
  }

  /** A complete pass sees other nodes or topics than before. */
  ghost predicate Sees(cfg: Config, g: Graph, e: Event) {
    var g' := Step(cfg, g, e);
    e.Observed? && Complete(e.o) && (!Same(g.nodes, g'.nodes) || g'.topics.Keys != g.topics.Keys)
  }

  /** The socket opens, or a complete pass sees a change while it is connected. */
  ghost predicate Tells(cfg: Config, g: Graph, e: Event) {
    e.SocketOpened? || (g.connected && Sees(cfg, g, e))
  }

  /** A pass that is not complete and loses no flag changes nothing. */
  lemma IncompleteIsIdle(cfg: Config, g: Graph, o: Observation, check: Check)
    requires !Complete(o) && !FlagLost(g, o)
    ensures Pass(cfg, g, o, check) == g
  {
    if o.nodes.Some? {
      KnownSame(g.nodes, o.nodes.value);
    }
  }

  /** From any graph, a step that loses no flag leaves the report of a connected bridge current exactly when
      it was, or when the step tells. */
  lemma StepCurrentIff(cfg: Config, g: Graph, e: Event)
    requires !LosesFlag(g, e)
    ensures var g' := Step(cfg, g, e);
            g'.connected ==> (Current(g') <==> Current(g) || Tells(cfg, g, e))
  {
    if e.Observed? && g.connected {
      if Complete(e.o) {
        SilentIffSame(cfg, g, e.o, e.check);
      } else {
        IncompleteIsIdle(cfg, g, e.o, e.check);
      }
    }
  }

  /** While the socket is connected, a pass leaves a current report current, texts aside, if and only if it
      loses no flag. */
  lemma ReportCurrentIff(cfg: Config, g: Graph, o: Observation, check: Check)
    requires g.connected && Current(g)
    ensures Current(Pass(cfg, g, o, check)) <==> !FlagLost(g, o)
  {
    if !FlagLost(g, o) {
      StepCurrentIff(cfg, g, Observed(o, check));
    }
  }

  function Run(cfg: Config, g: Graph, es: seq<Event>): Graph
    decreases |es|
  {
    if |es| == 0 then g else Run(cfg, Step(cfg, g, es[0]), es[1..])
  }

  ghost predicate NoFlagLost(cfg: Config, g: Graph, es: seq<Event>)
    decreases |es|
  {
    |es| == 0 || (!LosesFlag(g, es[0]) && NoFlagLost(cfg, Step(cfg, g, es[0]), es[1..]))
  }

  ghost predicate EverTells(cfg: Config, g: Graph, es: seq<Event>)
    decreases |es|
  {
    |es| != 0 && (Tells(cfg, g, es[0]) || EverTells(cfg, Step(cfg, g, es[0]), es[1..]))
  }

  /** What a connected bridge has told is current. */
  ghost predicate Told(g: Graph) {
    g.connected ==> Current(g)
  }

  /** It is so at the start and after every step. */
  ghost predicate AlwaysTold(cfg: Config, g: Graph, es: seq<Event>)
    decreases |es|
  {
    Told(g) && (|es| == 0 || AlwaysTold(cfg, Step(cfg, g, es[0]), es[1..]))
  }

  /** Over any run of passes, openings and closings: whenever the socket is connected, what was last told is
      the nodes as they are, if and only if no flag is lost while it is connected. A new bridge, which is not
      connected, meets the condition at the start. */
  lemma {:induction false} AlwaysToldIff(cfg: Config, g: Graph, es: seq<Event>)
    requires Told(g)
    ensures AlwaysTold(cfg, g, es) <==> NoFlagLost(cfg, g, es)
    decreases |es|
  {
    if |es| != 0 {
      if LosesFlag(g, es[0]) {
        ReportCurrentIff(cfg, g, es[0].o, es[0].check);
      } else {
        StepCurrentIff(cfg, g, es[0]);
        AlwaysToldIff(cfg, Step(cfg, g, es[0]), es[1..]);
      }
    }
  }

  /** While the socket is down nothing is told, whatever is seen. */
  lemma {:induction false} NothingToldWhileDown(cfg: Config, g: Graph, es: seq<Event>)
    requires !g.connected
    ensures EverTells(cfg, g, es) || (!Run(cfg, g, es).connected && Run(cfg, g, es).reported == g.reported)
    decreases |es|
  {
    if |es| != 0 && !es[0].SocketOpened? {
      NothingToldWhileDown(cfg, Step(cfg, g, es[0]), es[1..]);
    }
  }

  /** Over any run that loses no flag while connected and ends connected, from any graph: the report is
      current at the end if and only if it was at the start or some step told. */
  lemma {:induction false} RunCurrentIff(cfg: Config, g: Graph, es: seq<Event>)
    requires NoFlagLost(cfg, g, es) && Run(cfg, g, es).connected
    ensures Current(Run(cfg, g, es)) <==> Current(g) || EverTells(cfg, g, es)
    decreases |es|
  {
    if |es| != 0 {
      var g1 := Step(cfg, g, es[0]);
      StepCurrentIff(cfg, g, es[0]);
      RunCurrentIff(cfg, g1, es[1..]);
      if !g1.connected {
        NothingToldWhileDown(cfg, g1, es[1..]);
      }
    }
  }

  /** After a lost flag the report is outdated until a step tells, and no longer. */
  lemma LostUntilTold(cfg: Config, g: Graph, o: Observation, check: Check, es: seq<Event>)
    requires g.connected && Current(g) && FlagLost(g, o) && NoFlagLost(cfg, Pass(cfg, g, o, check), es)
    requires Run(cfg, Pass(cfg, g, o, check), es).connected
    ensures var g1 := Pass(cfg, g, o, check);
            Current(Run(cfg, g1, es)) <==> EverTells(cfg, g1, es)
  {
    ReportCurrentIff(cfg, g, o, check);
    RunCurrentIff(cfg, Pass(cfg, g, o, check), es);
  }

  lemma ServicesAgain(cfg: Config, old_: map<string, string>, seen: map<string, string>)
    ensures NewServices(cfg, NewServices(cfg, old_, seen), seen) == NewServices(cfg, old_, seen)
  {
  }

  /** The check of the first pass does not matter to the second. */
  lemma NodeAgain(cfg: Config, topics: map<string, string>, o: Observation, n: string, node: Node, check: Check,
                  check': Check)
    ensures var a := NewNode(cfg, topics, o, n, node, check);
            NewNode(cfg, topics, o, n, a, check') == a.(subscribers := SeenSubs(cfg, topics, o, n))
  {
    NewSubsPlain(node.subscribers, SeenSubs(cfg, topics, o, n), check);
    if n in o.services {
      ServicesAgain(cfg, node.services, o.services[n]);
    }
  }

  /** Nodes that a pass has just left, as the next one finds them. */
  ghost predicate Settled(cfg: Config, nodes: map<string, Node>, topics: map<string, string>, o: Observation,
                          check: Check) {
    forall n :: n in nodes ==>
      NewNode(cfg, topics, o, n, nodes[n], check) == nodes[n].(subscribers := SeenSubs(cfg, topics, o, n))
      && Plain(nodes[n].subscribers) == Plain(SeenSubs(cfg, topics, o, n))
  }

  lemma NodesSettle(cfg: Config, nodes: map<string, Node>, topics: map<string, string>, o: Observation, check: Check,
                    check': Check)
    ensures Settled(cfg, NewNodes(cfg, nodes, topics, o, check), topics, o, check')
  {
    forall n | n in nodes
      ensures var a := NewNode(cfg, topics, o, n, nodes[n], check);
              && NewNode(cfg, topics, o, n, a, check') == a.(subscribers := SeenSubs(cfg, topics, o, n))
              && Plain(a.subscribers) == Plain(SeenSubs(cfg, topics, o, n))
    {
      NodeAgain(cfg, topics, o, n, nodes[n], check, check');
      NewSubsPlain(nodes[n].subscribers, SeenSubs(cfg, topics, o, n), check);
    }
  }

  lemma SettledStay(cfg: Config, nodes: map<string, Node>, topics: map<string, string>, o: Observation, check: Check)
    requires Settled(cfg, nodes, topics, o, check)
    ensures var nodes' := NewNodes(cfg, nodes, topics, o, check);
            Same(nodes, nodes')
            && forall n :: n in nodes ==> nodes'[n] == nodes[n].(subscribers := SeenSubs(cfg, topics, o, n))
  {
  }

  /** A pass that observes the same again, with whatever check, makes no report. But it drops the texts of the
      QoS checks: only the copy of a list is told the old ones. */
  lemma SecondPassIsSilent(cfg: Config, g: Graph, o: Observation, check: Check, check': Check)
    requires Complete(o)
    ensures var g1 := Pass(cfg, g, o, check);
            var g2 := Pass(cfg, g1, o, check');
            && !MakesReport(cfg, g1, o, check') && g2.nodes.Keys == g1.nodes.Keys
            && forall n :: n in g1.nodes ==>
                 g2.nodes[n] == g1.nodes[n].(subscribers := SeenSubs(cfg, o.topics.value, o, n))
  {
    PassSettles(cfg, g, o, check, check');
    SettledIsSilent(cfg, Pass(cfg, g, o, check), o, check');
  }

  lemma PassSettles(cfg: Config, g: Graph, o: Observation, check: Check, check': Check)
    requires Complete(o)
    ensures var g1 := Pass(cfg, g, o, check);
            && g1.nodes.Keys == o.nodes.value.Keys && Settled(cfg, g1.nodes, o.topics.value, o, check')
            && KnownTopics(cfg, g1.topics, o.topics.value) == g1.topics
  {
    var known := KnownNodes(g.nodes, o.nodes.value);
    NodesSettle(cfg, known, o.topics.value, o, check, check');
    NewNodesKeep(cfg, known, o.topics.value, o, check);
    TopicsAgain(cfg, g.topics, o.topics.value);
  }

  lemma SettledIsSilent(cfg: Config, g: Graph, o: Observation, check: Check)
    requires Complete(o) && g.nodes.Keys == o.nodes.value.Keys && Settled(cfg, g.nodes, o.topics.value, o, check)
    requires KnownTopics(cfg, g.topics, o.topics.value) == g.topics
    ensures var g' := Pass(cfg, g, o, check);
            && !MakesReport(cfg, g, o, check) && g'.topics == g.topics && Same(g.nodes, g'.nodes)
            && forall n :: n in g.nodes ==>
               g'.nodes[n] == g.nodes[n].(subscribers := SeenSubs(cfg, o.topics.value, o, n))
  {
    KnownSame(g.nodes, o.nodes.value);
    SettledStay(cfg, g.nodes, o.topics.value, o, check);
    SilentIffSame(cfg, g, o, check);
  }

  lemma TopicsAgain(cfg: Config, topics: map<string, string>, seen: map<string, string>)
    ensures KnownTopics(cfg, KnownTopics(cfg, topics, seen), seen) == KnownTopics(cfg, topics, seen)
  {
  }

  // ----- a change that is told late -----

  function Again(o: Observation, check: Check, k: nat): seq<Event> {
    seq(k, _ => Observed(o, check))
  }

  /** What a settled graph observes again loses nothing and tells nothing, however often. */
  lemma {:induction false} SilentForever(cfg: Config, g: Graph, o: Observation, check: Check, k: nat)
    requires Complete(o) && g.nodes.Keys == o.nodes.value.Keys && Settled(cfg, g.nodes, o.topics.value, o, check)
    requires KnownTopics(cfg, g.topics, o.topics.value) == g.topics
    ensures NoFlagLost(cfg, g, Again(o, check, k)) && !EverTells(cfg, g, Again(o, check, k))
    ensures var g' := Run(cfg, g, Again(o, check, k));
            g'.nodes.Keys == g.nodes.Keys && g'.connected == g.connected && g'.reported == g.reported
    decreases k
  {
    if k > 0 {
      var g1 := Pass(cfg, g, o, check);
      assert Again(o, check, k)[1..] == Again(o, check, k - 1);
      SettledIsSilent(cfg, g, o, check);
      SilentIffSame(cfg, g, o, check);
      PassSettles(cfg, g, o, check, check);
      SilentForever(cfg, g1, o, check, k - 1);
    }
  }

  /** The observation without one of its nodes. */
  function Without(o: Observation, n: string): Observation
    requires o.nodes.Some?
  {
    o.(nodes := Some(o.nodes.value - {n}))
  }

  lemma WithoutSees(cfg: Config, topics: map<string, string>, o: Observation, n: string, m: string, node: Node,
                    check: Check)
    requires o.nodes.Some?
    ensures SeenSubs(cfg, topics, Without(o, n), m) == SeenSubs(cfg, topics, o, m)
    ensures NewNode(cfg, topics, Without(o, n), m, node, check) == NewNode(cfg, topics, o, m, node, check)
  {
    assert SeenPubs(cfg, topics, Without(o, n), m) == SeenPubs(cfg, topics, o, m);
  }

  lemma WithoutSettled(cfg: Config, g: Graph, o: Observation, n: string, check: Check)
    requires Complete(o) && g.nodes.Keys == o.nodes.value.Keys && Settled(cfg, g.nodes, o.topics.value, o, check)
    ensures var nodes := KnownNodes(g.nodes, o.nodes.value - {n});
            && nodes.Keys == g.nodes.Keys - {n}
            && Settled(cfg, nodes, o.topics.value, Without(o, n), check)
  {
    var nodes := KnownNodes(g.nodes, o.nodes.value - {n});
    assert nodes.Keys == g.nodes.Keys - {n};
    forall m | m in nodes
      ensures NewNode(cfg, o.topics.value, Without(o, n), m, nodes[m], check)
              == nodes[m].(subscribers := SeenSubs(cfg, o.topics.value, Without(o, n), m))
      ensures Plain(nodes[m].subscribers) == Plain(SeenSubs(cfg, o.topics.value, Without(o, n), m))
    {
      WithoutSees(cfg, o.topics.value, o, n, m, nodes[m], check);
    }
  }

  /** A connected bridge that observes other nodes tells them. */
  lemma NextTells(cfg: Config, g: Graph, o: Observation, check: Check)
    requires g.connected && Complete(o) && o.nodes.value.Keys != g.nodes.Keys
    ensures Current(Pass(cfg, g, o, check))
  {
    StepCurrentIff(cfg, g, Observed(o, check));
    NewNodesKeep(cfg, KnownNodes(g.nodes, o.nodes.value), o.topics.value, o, check);
  }

  /** The pass that loses the flag leaves the other nodes settled and reported. */
  lemma LossSettled(cfg: Config, g: Graph, o: Observation, check: Check, n: string)
    requires g.connected && Current(g) && Complete(o) && n in o.nodes.value
    ensures var lost := Pass(cfg, Pass(cfg, g, o, check), Without(o, n).(topics := None), check);
            && lost.connected && n in lost.reported
            && lost.nodes.Keys == o.nodes.value.Keys - {n}
            && Settled(cfg, lost.nodes, o.topics.value, Without(o, n), check)
            && KnownTopics(cfg, lost.topics, o.topics.value) == lost.topics
  {
    var g1 := Pass(cfg, g, o, check);
    StepCurrentIff(cfg, g, Observed(o, check));
    PassSettles(cfg, g, o, check, check);
    assert n in g1.reported;
    WithoutSettled(cfg, g1, o, n, check);
  }

  /** A node goes while the query for topics fails, and all others stay: however often just that is observed
      afterwards, the node is still told to be there, until other nodes are observed or the socket opens. */
  lemma LossToldLate(cfg: Config, g: Graph, o: Observation, check: Check, n: string, k: nat, next: Observation,
                     check': Check)
    requires g.connected && Current(g) && Complete(o) && n in o.nodes.value
    requires Complete(next) && next.nodes.value.Keys != o.nodes.value.Keys - {n}
    ensures var gone := Without(o, n);
            var lost := Pass(cfg, Pass(cfg, g, o, check), gone.(topics := None), check);
            var g' := Run(cfg, lost, Again(gone, check, k));
            && n in g'.reported && n !in g'.nodes && g'.connected && !Current(g')
            && Current(Step(cfg, g', SocketOpened)) && Current(Pass(cfg, g', next, check'))
  {
    var lost := Pass(cfg, Pass(cfg, g, o, check), Without(o, n).(topics := None), check);
    LossSettled(cfg, g, o, check, n);
    SilentForever(cfg, lost, Without(o, n), check, k);
    NextTells(cfg, Run(cfg, lost, Again(Without(o, n), check, k)), next, check');
  }
}
