/** The endpoints of a node that `runIntrospection` collects, topic by topic (src/introspection.cpp). */
module Endpoints {
  import opened Options
  import opened GraphDiff

  function WithPub(m: map<string, Pub>, t: string, msgType: string, qs: seq<Qos>): map<string, Pub> {
    if qs == [] then m else m[t := Pub(msgType, qs)]
  }

  function WithSub(m: map<string, Sub>, t: string, msgType: string, qs: seq<Qos>): map<string, Sub> {
    if qs == [] then m else m[t := Sub(msgType, Unchecked(qs))]
  }

  lemma OfNext(es: seq<Endpoint>, e: Endpoint, n: string)
    ensures Of(es + [e], n) == if e.node == n then Of(es, n) + [e.qos] else Of(es, n)
  {
    assert (es + [e])[..|es|] == es;
  }

  lemma PubNext(m: map<string, Pub>, t: string, msgType: string, qs: seq<Qos>, q: Qos)
    requires t !in m
    ensures var own := WithPub(m, t, msgType, qs);
            WithPub(m, t, msgType, qs + [q]) == PubAdded(own, t, msgType, q)
  {
    if qs == [] {
      assert qs + [q] == [q];
      return;
    }
  }

  lemma SubNext(m: map<string, Sub>, t: string, msgType: string, qs: seq<Qos>, q: Qos)
    requires t !in m
    ensures var own := WithSub(m, t, msgType, qs);
            WithSub(m, t, msgType, qs + [q]) == SubAdded(own, t, msgType, q)
  {
    assert (qs + [q])[..|qs|] == qs;
    if qs == [] {
      assert Unchecked(qs + [q]) == [SubQos(q, "", "")];
    }
  }

  /** `tmp'` is `tmp` with the endpoints `es` of topic `t`. */
  ghost predicate PubsCollected(tmp': map<string, map<string, Pub>>, tmp: map<string, map<string, Pub>>, t: string,
                                msgType: string, es: seq<Endpoint>) {
    tmp'.Keys == tmp.Keys && forall n :: n in tmp ==> tmp'[n] == WithPub(tmp[n], t, msgType, Of(es, n))
  }

  function PubAdded(own: map<string, Pub>, t: string, msgType: string, q: Qos): map<string, Pub> {
    own[t := if t in own then own[t].(qos := own[t].qos + [q]) else Pub(msgType, [q])]
  }

  /** One more endpoint, for the node it belongs to. */
  lemma PubCollectedNext(tmp': map<string, map<string, Pub>>, tmp: map<string, map<string, Pub>>, t: string,
                         msgType: string, es: seq<Endpoint>, e: Endpoint, es': seq<Endpoint>)
    requires PubsCollected(tmp', tmp, t, msgType, es) && e.node in tmp && t !in tmp[e.node]
    requires forall n :: n in tmp ==> Of(es', n) == if e.node == n then Of(es, n) + [e.qos] else Of(es, n)
    ensures PubsCollected(tmp'[e.node := PubAdded(tmp'[e.node], t, msgType, e.qos)], tmp, t, msgType, es')
  {
    PubNext(tmp[e.node], t, msgType, Of(es, e.node), e.qos);
    PubReplaced(tmp', tmp, t, msgType, es, es', e.node, PubAdded(tmp'[e.node], t, msgType, e.qos));
  }

  lemma PubReplaced(tmp': map<string, map<string, Pub>>, tmp: map<string, map<string, Pub>>, t: string,
                    msgType: string, es: seq<Endpoint>, es': seq<Endpoint>, node: string, own: map<string, Pub>)
    requires PubsCollected(tmp', tmp, t, msgType, es) && node in tmp
    requires own == WithPub(tmp[node], t, msgType, Of(es', node))
    requires forall n :: n in tmp && n != node ==> Of(es', n) == Of(es, n)
    ensures PubsCollected(tmp'[node := own], tmp, t, msgType, es')
  {
  }

  /** An endpoint of a node that is not known is skipped. */
  lemma PubSkipped(tmp': map<string, map<string, Pub>>, tmp: map<string, map<string, Pub>>, t: string,
                   msgType: string, es: seq<Endpoint>, e: Endpoint, es': seq<Endpoint>)
    requires PubsCollected(tmp', tmp, t, msgType, es) && e.node !in tmp
    requires forall n :: n in tmp ==> Of(es', n) == if e.node == n then Of(es, n) + [e.qos] else Of(es, n)
    ensures PubsCollected(tmp', tmp, t, msgType, es')
  {
  }

  lemma OfAllNext(nodes: set<string>, es: seq<Endpoint>, e: Endpoint)
    ensures forall n :: n in nodes ==> Of(es + [e], n) == if e.node == n then Of(es, n) + [e.qos] else Of(es, n)
  {
    forall n | n in nodes
      ensures Of(es + [e], n) == if e.node == n then Of(es, n) + [e.qos] else Of(es, n)
    {
      OfNext(es, e, n);
    }
  }

  /** The loop over the publishers of one topic; an endpoint of an unknown node is skipped. */
  method AddPublishers(tmp: map<string, map<string, Pub>>, t: string, msgType: string, es: seq<Endpoint>)
    returns (tmp': map<string, map<string, Pub>>)
    requires forall n :: n in tmp ==> t !in tmp[n]
    ensures PubsCollected(tmp', tmp, t, msgType, es)
  {
    tmp' := tmp;
    for i := 0 to |es|
      invariant PubsCollected(tmp', tmp, t, msgType, es[..i])
    {
      var e := es[i];
      assert es[..i + 1] == es[..i] + [e];
      OfAllNext(tmp.Keys, es[..i], e);
      if e.node !in tmp' {
        PubSkipped(tmp', tmp, t, msgType, es[..i], e, es[..i + 1]);
        continue;
      }
      PubCollectedNext(tmp', tmp, t, msgType, es[..i], e, es[..i + 1]);
      tmp' := tmp'[e.node := PubAdded(tmp'[e.node], t, msgType, e.qos)];
    }
    assert es[..|es|] == es;
  }

  /** `tmp'` is `tmp` with the endpoints `es` of topic `t`. */
  ghost predicate SubsCollected(tmp': map<string, map<string, Sub>>, tmp: map<string, map<string, Sub>>, t: string,
                                msgType: string, es: seq<Endpoint>) {
    tmp'.Keys == tmp.Keys && forall n :: n in tmp ==> tmp'[n] == WithSub(tmp[n], t, msgType, Of(es, n))
  }

  function SubAdded(own: map<string, Sub>, t: string, msgType: string, q: Qos): map<string, Sub> {
    own[t := if t in own then own[t].(qos := own[t].qos + [SubQos(q, "", "")]) else Sub(msgType, [SubQos(q, "", "")])]
  }

  /** One more endpoint, for the node it belongs to. */
  lemma SubCollectedNext(tmp': map<string, map<string, Sub>>, tmp: map<string, map<string, Sub>>, t: string,
                         msgType: string, es: seq<Endpoint>, e: Endpoint, es': seq<Endpoint>)
    requires SubsCollected(tmp', tmp, t, msgType, es) && e.node in tmp && t !in tmp[e.node]
    requires forall n :: n in tmp ==> Of(es', n) == if e.node == n then Of(es, n) + [e.qos] else Of(es, n)
    ensures SubsCollected(tmp'[e.node := SubAdded(tmp'[e.node], t, msgType, e.qos)], tmp, t, msgType, es')
  {
    SubNext(tmp[e.node], t, msgType, Of(es, e.node), e.qos);
    SubReplaced(tmp', tmp, t, msgType, es, es', e.node, SubAdded(tmp'[e.node], t, msgType, e.qos));
  }

  lemma SubReplaced(tmp': map<string, map<string, Sub>>, tmp: map<string, map<string, Sub>>, t: string,
                    msgType: string, es: seq<Endpoint>, es': seq<Endpoint>, node: string, own: map<string, Sub>)
    requires SubsCollected(tmp', tmp, t, msgType, es) && node in tmp
    requires own == WithSub(tmp[node], t, msgType, Of(es', node))
    requires forall n :: n in tmp && n != node ==> Of(es', n) == Of(es, n)
    ensures SubsCollected(tmp'[node := own], tmp, t, msgType, es')
  {
  }

  /** An endpoint of a node that is not known is skipped. */
  lemma SubSkipped(tmp': map<string, map<string, Sub>>, tmp: map<string, map<string, Sub>>, t: string,
                   msgType: string, es: seq<Endpoint>, e: Endpoint, es': seq<Endpoint>)
    requires SubsCollected(tmp', tmp, t, msgType, es) && e.node !in tmp
    requires forall n :: n in tmp ==> Of(es', n) == if e.node == n then Of(es, n) + [e.qos] else Of(es, n)
    ensures SubsCollected(tmp', tmp, t, msgType, es')
  {
  }

  /** The loop over the subscribers of one topic. */
  method AddSubscribers(tmp: map<string, map<string, Sub>>, t: string, msgType: string, es: seq<Endpoint>)
    returns (tmp': map<string, map<string, Sub>>)
    requires forall n :: n in tmp ==> t !in tmp[n]
    ensures SubsCollected(tmp', tmp, t, msgType, es)
  {
    tmp' := tmp;
    for i := 0 to |es|
      invariant SubsCollected(tmp', tmp, t, msgType, es[..i])
    {
      var e := es[i];
      assert es[..i + 1] == es[..i] + [e];
      OfAllNext(tmp.Keys, es[..i], e);
      if e.node !in tmp' {
        SubSkipped(tmp', tmp, t, msgType, es[..i], e, es[..i + 1]);
        continue;
      }
      SubCollectedNext(tmp', tmp, t, msgType, es[..i], e, es[..i + 1]);
      tmp' := tmp'[e.node := SubAdded(tmp'[e.node], t, msgType, e.qos)];
    }
    assert es[..|es|] == es;
  }

  function PubsOn(cfg: Config, topics: map<string, string>, o: Observation, n: string,
                  done: set<string>): map<string, Pub> {
    map t | t in topics && t in done && PubsSeen(cfg, topics, o, t) && Of(o.pubs[t], n) != []
      :: Pub(topics[t], Of(o.pubs[t], n))
  }

  function SubsOn(cfg: Config, topics: map<string, string>, o: Observation, n: string,
                  done: set<string>): map<string, Sub> {
    map t | t in topics && t in done && SubsSeen(cfg, topics, o, t) && Of(o.subs[t], n) != []
      :: Sub(topics[t], Unchecked(Of(o.subs[t], n)))
  }

  /** Equal maps, entry by entry. */
  ghost predicate SameEntries<V>(a: map<string, V>, b: map<string, V>) {
    a.Keys == b.Keys && forall t :: t in a ==> a[t] == b[t]
  }

  /** What one node has after one more topic. */
  lemma PubsOnNext(cfg: Config, topics: map<string, string>, o: Observation, n: string, done: set<string>, t: string,
                   own: map<string, Pub>, own': map<string, Pub>)
    requires t in topics && t !in done && SameEntries(own, PubsOn(cfg, topics, o, n, done))
    requires own' == if PubsSeen(cfg, topics, o, t) then WithPub(own, t, topics[t], Of(o.pubs[t], n)) else own
    ensures SameEntries(own', PubsOn(cfg, topics, o, n, done + {t}))
  {
    if PubsSeen(cfg, topics, o, t) {
      return;
    }
  }

  lemma SubsOnNext(cfg: Config, topics: map<string, string>, o: Observation, n: string, done: set<string>, t: string,
                   own: map<string, Sub>, own': map<string, Sub>)
    requires t in topics && t !in done && SameEntries(own, SubsOn(cfg, topics, o, n, done))
    requires own' == if SubsSeen(cfg, topics, o, t) then WithSub(own, t, topics[t], Of(o.subs[t], n)) else own
    ensures SameEntries(own', SubsOn(cfg, topics, o, n, done + {t}))
  {
    if SubsSeen(cfg, topics, o, t) {
      return;
    }
  }

  /** What is collected of the topics `done`. */
  ghost predicate CollectedPubs(cfg: Config, nodes: set<string>, topics: map<string, string>, o: Observation,
                                done: set<string>, pubs: map<string, map<string, Pub>>) {
    pubs.Keys == nodes && forall n :: n in nodes ==> SameEntries(pubs[n], PubsOn(cfg, topics, o, n, done))
  }

  ghost predicate CollectedSubs(cfg: Config, nodes: set<string>, topics: map<string, string>, o: Observation,
                                done: set<string>, subs: map<string, map<string, Sub>>) {
    subs.Keys == nodes && forall n :: n in nodes ==> SameEntries(subs[n], SubsOn(cfg, topics, o, n, done))
  }

  lemma CollectedPubsNext(cfg: Config, nodes: set<string>, topics: map<string, string>, o: Observation,
                          done: set<string>, t: string,
                          pubs: map<string, map<string, Pub>>, pubs': map<string, map<string, Pub>>)
    requires CollectedPubs(cfg, nodes, topics, o, done, pubs) && t in topics && t !in done
    requires if PubsSeen(cfg, topics, o, t) then PubsCollected(pubs', pubs, t, topics[t], o.pubs[t]) else pubs' == pubs
    ensures CollectedPubs(cfg, nodes, topics, o, done + {t}, pubs')
  {
    forall n | n in nodes
      ensures SameEntries(pubs'[n], PubsOn(cfg, topics, o, n, done + {t}))
    {
      PubsOnNext(cfg, topics, o, n, done, t, pubs[n], pubs'[n]);
    }
  }

  lemma CollectedSubsNext(cfg: Config, nodes: set<string>, topics: map<string, string>, o: Observation,
                          done: set<string>, t: string,
                          subs: map<string, map<string, Sub>>, subs': map<string, map<string, Sub>>)
    requires CollectedSubs(cfg, nodes, topics, o, done, subs) && t in topics && t !in done
    requires if SubsSeen(cfg, topics, o, t) then SubsCollected(subs', subs, t, topics[t], o.subs[t]) else subs' == subs
    ensures CollectedSubs(cfg, nodes, topics, o, done + {t}, subs')
  {
    forall n | n in nodes
      ensures SameEntries(subs'[n], SubsOn(cfg, topics, o, n, done + {t}))
    {
      SubsOnNext(cfg, topics, o, n, done, t, subs[n], subs'[n]);
    }
  }

  /** The endpoints of one topic. */
  method CollectTopic(cfg: Config, topics: map<string, string>, o: Observation, t: string,
                      pubs: map<string, map<string, Pub>>, subs: map<string, map<string, Sub>>)
    returns (pubs': map<string, map<string, Pub>>, subs': map<string, map<string, Sub>>)
    requires t in topics && (forall n :: n in pubs ==> t !in pubs[n]) && forall n :: n in subs ==> t !in subs[n]
    ensures if PubsSeen(cfg, topics, o, t) then PubsCollected(pubs', pubs, t, topics[t], o.pubs[t]) else pubs' == pubs
    ensures if SubsSeen(cfg, topics, o, t) then SubsCollected(subs', subs, t, topics[t], o.subs[t]) else subs' == subs
  {
    pubs', subs' := pubs, subs;
    if t in cfg.topics || topics[t] in cfg.topics {
      return;
    }
    if t !in o.pubs {
      return;
    }
    pubs' := AddPublishers(pubs, t, topics[t], o.pubs[t]);
    if t !in o.subs {
      return;
    }
    subs' := AddSubscribers(subs, t, topics[t], o.subs[t]);
  }

  /** One round of the loop over the observed topics. */
  method CollectNext(cfg: Config, nodes: set<string>, topics: map<string, string>, o: Observation,
                     ghost done: set<string>, t: string, pubs: map<string, map<string, Pub>>,
                     subs: map<string, map<string, Sub>>)
    returns (pubs': map<string, map<string, Pub>>, subs': map<string, map<string, Sub>>)
    requires t in topics && t !in done
    requires CollectedPubs(cfg, nodes, topics, o, done, pubs) && CollectedSubs(cfg, nodes, topics, o, done, subs)
    ensures CollectedPubs(cfg, nodes, topics, o, done + {t}, pubs')
            && CollectedSubs(cfg, nodes, topics, o, done + {t}, subs')
  {
    pubs', subs' := CollectTopic(cfg, topics, o, t, pubs, subs);
    CollectedPubsNext(cfg, nodes, topics, o, done, t, pubs, pubs');
    CollectedSubsNext(cfg, nodes, topics, o, done, t, subs, subs');
  }

  lemma NothingCollected(cfg: Config, nodes: set<string>, topics: map<string, string>, o: Observation,
                         pubs: map<string, map<string, Pub>>, subs: map<string, map<string, Sub>>)
    requires pubs.Keys == nodes && subs.Keys == nodes
    requires forall n :: n in nodes ==> pubs[n].Keys == {} && subs[n].Keys == {}
    ensures CollectedPubs(cfg, nodes, topics, o, {}, pubs) && CollectedSubs(cfg, nodes, topics, o, {}, subs)
  {
  }

  lemma AllPubsCollected(cfg: Config, nodes: set<string>, topics: map<string, string>, o: Observation,
                         done: set<string>, pubs: map<string, map<string, Pub>>)
    requires CollectedPubs(cfg, nodes, topics, o, done, pubs) && topics.Keys <= done
    ensures forall n :: n in nodes ==> pubs[n] == SeenPubs(cfg, topics, o, n)
  {
    forall n | n in nodes
      ensures pubs[n] == SeenPubs(cfg, topics, o, n)
    {
      assert SameEntries(pubs[n], SeenPubs(cfg, topics, o, n));
    }
  }

  lemma AllSubsCollected(cfg: Config, nodes: set<string>, topics: map<string, string>, o: Observation,
                         done: set<string>, subs: map<string, map<string, Sub>>)
    requires CollectedSubs(cfg, nodes, topics, o, done, subs) && topics.Keys <= done
    ensures forall n :: n in nodes ==> subs[n] == SeenSubs(cfg, topics, o, n)
  {
    forall n | n in nodes
      ensures subs[n] == SeenSubs(cfg, topics, o, n)
    {
      assert SameEntries(subs[n], SeenSubs(cfg, topics, o, n));
    }
  }
}
