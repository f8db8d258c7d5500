/** What a complete pass of the introspection stores, told by the fields of the observation alone
    (src/introspection.cpp). */
module Discovered {
  import opened Options
  import opened GraphDiff

  // ----- endpoints of one node -----

  /** The positions at which a node occurs, in order. */
  ghost predicate PositionsOf(es: seq<Endpoint>, n: string, ks: seq<nat>) {
    && (forall i :: 0 <= i < |ks| ==> ks[i] < |es| && es[ks[i]].node == n)
    && (forall i, j :: 0 <= i < j < |ks| ==> ks[i] < ks[j])
    && (forall k :: 0 <= k < |es| && es[k].node == n ==> k in ks)
  }

  /** The profiles at these positions. */
  ghost predicate ProfilesAt(es: seq<Endpoint>, ks: seq<nat>, qs: seq<Qos>) {
    |qs| == |ks| && forall i :: 0 <= i < |ks| ==> ks[i] < |es| && qs[i] == es[ks[i]].qos
  }

  lemma {:induction false} OfPositions(es: seq<Endpoint>, n: string) returns (ks: seq<nat>)
    ensures PositionsOf(es, n, ks) && ProfilesAt(es, ks, Of(es, n))
    decreases |es|
  {
    ks := [];
    if es != [] {
      var init := es[..|es| - 1];
      ks := OfPositions(init, n);
      PositionsNext(init, es[|es| - 1], n, ks, Of(init, n));
      assert es == init + [es[|es| - 1]];
      if es[|es| - 1].node == n {
        ks := ks + [|init|];
      }
    }
  }

  lemma PositionsNext(es: seq<Endpoint>, e: Endpoint, n: string, ks: seq<nat>, qs: seq<Qos>)
    requires PositionsOf(es, n, ks) && ProfilesAt(es, ks, qs)
    ensures e.node != n ==> PositionsOf(es + [e], n, ks) && ProfilesAt(es + [e], ks, qs)
    ensures e.node == n ==> PositionsOf(es + [e], n, ks + [|es|]) && ProfilesAt(es + [e], ks + [|es|], qs + [e.qos])
  {
    var all := es + [e];
    assert forall k :: 0 <= k < |es| ==> all[k] == es[k];
    assert forall k :: k in ks ==> k in ks + [|es|];
    assert |es| in ks + [|es|];
  }

  lemma OfSome(es: seq<Endpoint>, n: string)
    ensures Of(es, n) != [] <==> exists k :: 0 <= k < |es| && es[k].node == n
  {
    var ks := OfPositions(es, n);
    if ks != [] {
      assert es[ks[0]].node == n;
    }
  }

  lemma {:induction false} UncheckedOf(qs: seq<Qos>)
    ensures |Unchecked(qs)| == |qs|
    ensures forall k :: 0 <= k < |qs| ==> Unchecked(qs)[k] == SubQos(qs[k], "", "")
    decreases |qs|
  {
    if qs != [] {
      UncheckedOf(qs[..|qs| - 1]);
    }
  }

  // ----- topics -----

  /** After a complete pass the topics are those observed that were known before, or of which neither the name
      nor the type is blacklisted; a known one keeps the type it was discovered with. */
  lemma TopicKnownIff(cfg: Config, g: Graph, o: Observation, check: Check, t: string)
    requires Complete(o)
    ensures var g' := Pass(cfg, g, o, check);
            t in g'.topics <==>
            t in o.topics.value && (t in g.topics || (t !in cfg.topics && o.topics.value[t] !in cfg.topics))
    ensures var g' := Pass(cfg, g, o, check);
            t in g'.topics ==> g'.topics[t] == if t in g.topics then g.topics[t] else o.topics.value[t]
  {
  }

  /** The publishers of a node are exactly the observed topics that are not blacklisted, by name or by type, and
      among whose observed publishers the node is; with the observed type, and the profiles of the node's
      publishers in the order in which they were observed. */
  lemma PublishesIff(cfg: Config, g: Graph, o: Observation, check: Check, n: string, t: string)
    returns (ks: seq<nat>)
    requires Complete(o) && n in o.nodes.value
    ensures var g' := Pass(cfg, g, o, check);
            n in g'.nodes &&
            (t in g'.nodes[n].publishers <==>
             && t in o.topics.value && t !in cfg.topics && o.topics.value[t] !in cfg.topics
             && t in o.pubs && exists k :: 0 <= k < |o.pubs[t]| && o.pubs[t][k].node == n)
    ensures var g' := Pass(cfg, g, o, check);
            t in g'.nodes[n].publishers ==>
            && g'.nodes[n].publishers[t].msgType == o.topics.value[t]
            && PositionsOf(o.pubs[t], n, ks) && ProfilesAt(o.pubs[t], ks, g'.nodes[n].publishers[t].qos)
  {
    ks := [];
    if t in o.pubs {
      OfSome(o.pubs[t], n);
      ks := OfPositions(o.pubs[t], n);
    }
    StoredIsObserved(cfg, g, o, check, n);
  }

  /** The same for subscriptions; these are not looked at when the query for publishers fails. */
  lemma SubscribesIff(cfg: Config, g: Graph, o: Observation, check: Check, n: string, t: string)
    returns (ks: seq<nat>)
    requires Complete(o) && n in o.nodes.value
    ensures var g' := Pass(cfg, g, o, check);
            n in g'.nodes &&
            (t in g'.nodes[n].subscribers <==>
             && t in o.topics.value && t !in cfg.topics && o.topics.value[t] !in cfg.topics
             && t in o.pubs && t in o.subs && exists k :: 0 <= k < |o.subs[t]| && o.subs[t][k].node == n)
    ensures var g' := Pass(cfg, g, o, check);
            t in g'.nodes[n].subscribers ==>
            && g'.nodes[n].subscribers[t].msgType == o.topics.value[t]
            && PositionsOf(o.subs[t], n, ks) && SubsAt(o.subs[t], ks, g'.nodes[n].subscribers[t].qos)
  {
    ks := [];
    var seen := SeenSubs(cfg, o.topics.value, o, n);
    if t in o.subs {
      OfSome(o.subs[t], n);
      ks := OfPositions(o.subs[t], n);
      UncheckedOf(Of(o.subs[t], n));
    }
    NodeAfter(cfg, g, o, check, n);
    StoredSubs(cfg, g, o, check, n, t);
  }

  ghost predicate SubsAt(es: seq<Endpoint>, ks: seq<nat>, qs: seq<SubQos>) {
    |qs| == |ks| && forall i :: 0 <= i < |ks| ==> ks[i] < |es| && qs[i].qos == es[ks[i]].qos
  }

  /** What a pass finds of a node. */
  function Before(g: Graph, o: Observation, n: string): Node
    requires Complete(o) && n in o.nodes.value
  {
    if n in g.nodes then g.nodes[n] else Node(o.nodes.value[n], map[], map[], map[])
  }

  lemma NodeAfter(cfg: Config, g: Graph, o: Observation, check: Check, n: string)
    requires Complete(o) && n in o.nodes.value
    ensures var g' := Pass(cfg, g, o, check);
            n in g'.nodes && g'.nodes[n] == NewNode(cfg, o.topics.value, o, n, Before(g, o, n), check)
  {
  }

  lemma StoredSubs(cfg: Config, g: Graph, o: Observation, check: Check, n: string, t: string)
    requires Complete(o) && n in o.nodes.value && n in Pass(cfg, g, o, check).nodes
    ensures var (subs, seen) := (Pass(cfg, g, o, check).nodes[n].subscribers, SeenSubs(cfg, o.topics.value, o, n));
            && (t in subs <==> t in seen)
            && (t in subs ==>
                  && subs[t].msgType == seen[t].msgType && |subs[t].qos| == |seen[t].qos|
                  && forall k :: 0 <= k < |seen[t].qos| ==> subs[t].qos[k].qos == seen[t].qos[k].qos)
  {
    NodeAfter(cfg, g, o, check, n);
    NewSubsAt(Before(g, o, n).subscribers, SeenSubs(cfg, o.topics.value, o, n), check, t);
  }

  lemma NewSubsAt(old_: map<string, Sub>, seen: map<string, Sub>, check: Check, t: string)
    ensures var subs := NewSubs(old_, seen, check);
            && (t in subs <==> t in seen)
            && (t in subs ==>
                  && subs[t].msgType == seen[t].msgType && |subs[t].qos| == |seen[t].qos|
                  && forall k :: 0 <= k < |seen[t].qos| ==> subs[t].qos[k].qos == seen[t].qos[k].qos)
  {
  }

  lemma CheckedAt(old_: map<string, Sub>, seen: map<string, Sub>, check: Check, t: string, k: nat)
    requires Plain(NewSubs(old_, seen, check)) != Plain(old_)
    requires t in NewSubs(old_, seen, check) && k < |NewSubs(old_, seen, check)[t].qos|
    ensures var q := NewSubs(old_, seen, check)[t].qos[k];
            q.error == check(t, q.qos).0 && q.warning == check(t, q.qos).1
  {
    NewSubsPlain(old_, seen, check);
  }

  /** When the subscriptions of a node differ from those stored before, every one of them is told what the
      check finds; a node that was not known before counts as one without subscriptions. */
  lemma ChangedAreChecked(cfg: Config, g: Graph, o: Observation, check: Check, n: string, t: string, k: nat)
    requires Complete(o) && n in o.nodes.value && n in Pass(cfg, g, o, check).nodes
    requires var subs := Pass(cfg, g, o, check).nodes[n].subscribers;
             && t in subs && k < |subs[t].qos|
             && Plain(subs) != Plain(if n in g.nodes then g.nodes[n].subscribers else map[])
    ensures var q := Pass(cfg, g, o, check).nodes[n].subscribers[t].qos[k];
            q.error == check(t, q.qos).0 && q.warning == check(t, q.qos).1
  {
    NodeAfter(cfg, g, o, check, n);
    CheckedAt(Before(g, o, n).subscribers, SeenSubs(cfg, o.topics.value, o, n), check, t, k);
  }

  /** The services of a node are those it had and those observed now of which neither the name nor the type is
      blacklisted, with the type observed last; none is ever forgotten while the node is there. A new node has
      the observed namespace, a known one keeps its own. */
  lemma ServesIff(cfg: Config, g: Graph, o: Observation, check: Check, n: string, s: string)
    requires Complete(o) && n in o.nodes.value
    ensures var g' := Pass(cfg, g, o, check);
            var found := n in o.services && s in o.services[n]
                         && s !in cfg.services && o.services[n][s] !in cfg.services;
            && n in g'.nodes
            && (s in g'.nodes[n].services <==> found || (n in g.nodes && s in g.nodes[n].services))
            && (found ==> g'.nodes[n].services[s] == o.services[n][s])
            && (!found && s in g'.nodes[n].services ==> g'.nodes[n].services[s] == g.nodes[n].services[s])
            && g'.nodes[n].ns == if n in g.nodes then g.nodes[n].ns else o.nodes.value[n]
  {
    NodeAfter(cfg, g, o, check, n);
  }
}
