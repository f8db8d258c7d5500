/** The topics a peer asks to read and to write (src/wrtc_peer.cpp): lists that hold each topic once. */
module Requests {
  import opened Reconcile

  ghost predicate ReadsOnce(topics: seq<string>) {
    forall i, j :: 0 <= i < j < |topics| ==> topics[i] != topics[j]
  }

  ghost predicate WritesOnce(reqs: seq<WriteRequest>) {
    forall i, j :: 0 <= i < j < |reqs| ==> reqs[i].topic != reqs[j].topic
  }

  // ----- reading -----

  function WithRead(topics: seq<string>, t: string): seq<string> {
    if t in topics then topics else topics + [t]
  }

  /** The first occurrence goes. */
  function WithoutRead(topics: seq<string>, t: string): seq<string>
    decreases |topics|
  {
    if topics == [] then []
    else if topics[0] == t then topics[1..]
    else [topics[0]] + WithoutRead(topics[1..], t)
  }

  /** One more topic after another. */
  function WithReads(topics: seq<string>, more: seq<string>): seq<string>
    decreases |more|
  {
    if more == [] then topics else WithReads(WithRead(topics, more[0]), more[1..])
  }

  lemma AddReadAdds(topics: seq<string>, t: string)
    requires ReadsOnce(topics)
    ensures ReadsOnce(WithRead(topics, t)) && Topics(WithRead(topics, t)) == Topics(topics) + {t}
  {
  }

  lemma {:induction false} RemoveReadRemoves(topics: seq<string>, t: string)
    requires ReadsOnce(topics)
    ensures ReadsOnce(WithoutRead(topics, t)) && Topics(WithoutRead(topics, t)) == Topics(topics) - {t}
    decreases |topics|
  {
    if topics != [] {
      var x, rest := topics[0], WithoutRead(topics[1..], t);
      TopicsOfFirst(topics);
      if x != t {
        RemoveReadRemoves(topics[1..], t);
        TopicsOfFirst([x] + rest);
        forall i | 0 <= i < |rest|
          ensures rest[i] != x
        {
          assert rest[i] in Topics(rest);
        }
      } else {
        assert t !in Topics(topics[1..]);
      }
    }
  }

  lemma TopicsOfFirst(topics: seq<string>)
    requires topics != []
    ensures Topics(topics) == {topics[0]} + Topics(topics[1..])
  {
    assert topics == [topics[0]] + topics[1..];
  }

  // ----- writing -----

  /** The list without every entry for `t`. */
  function Purged(reqs: seq<WriteRequest>, t: string): (r: seq<WriteRequest>)
    decreases |reqs|
  {
    if reqs == [] then []
    else (if reqs[0].topic == t then [] else [reqs[0]]) + Purged(reqs[1..], t)
  }

  /** A topic asked for again with the same type stays where it is, with another type it moves last. */
  function WithWrite(reqs: seq<WriteRequest>, t: string, msgType: string): seq<WriteRequest> {
    if WriteRequest(t, msgType) in reqs then reqs else Purged(reqs, t) + [WriteRequest(t, msgType)]
  }

  function WithWrites(reqs: seq<WriteRequest>, more: seq<WriteRequest>): seq<WriteRequest>
    decreases |more|
  {
    if more == [] then reqs else WithWrites(WithWrite(reqs, more[0].topic, more[0].msgType), more[1..])
  }

  lemma {:induction false} PurgedKeeps(reqs: seq<WriteRequest>, t: string)
    requires WritesOnce(reqs)
    ensures WritesOnce(Purged(reqs, t))
    ensures forall r :: r in Purged(reqs, t) <==> r in reqs && r.topic != t
    decreases |reqs|
  {
    if reqs != [] {
      PurgedKeeps(reqs[1..], t);
      assert reqs == [reqs[0]] + reqs[1..];
      var rest := Purged(reqs[1..], t);
      forall i | 0 <= i < |rest|
        ensures rest[i].topic != reqs[0].topic
      {
        assert rest[i] in reqs[1..];
      }
    }
  }

  /** The list asks for `t` with the new type and is otherwise as before. */
  lemma AddWriteAdds(reqs: seq<WriteRequest>, t: string, msgType: string)
    requires WritesOnce(reqs)
    ensures WritesOnce(WithWrite(reqs, t, msgType))
    ensures forall r :: r in WithWrite(reqs, t, msgType) <==>
              r == WriteRequest(t, msgType) || (r in reqs && r.topic != t)
  {
    PurgedKeeps(reqs, t);
    var kept := Purged(reqs, t);
    forall i | 0 <= i < |kept|
      ensures kept[i].topic != t
    {
      assert kept[i] in kept;
    }
  }

  lemma RemoveWriteRemoves(reqs: seq<WriteRequest>, t: string)
    requires WritesOnce(reqs)
    ensures WritesOnce(Purged(reqs, t)) && WriteTopics(Purged(reqs, t)) == WriteTopics(reqs) - {t}
  {
    PurgedKeeps(reqs, t);
    var kept := Purged(reqs, t);
    forall u | u in WriteTopics(kept)
      ensures u in WriteTopics(reqs) && u != t
    {
      var k :| 0 <= k < |kept| && kept[k].topic == u;
      assert kept[k] in kept;
    }
    forall u | u in WriteTopics(reqs) && u != t
      ensures u in WriteTopics(kept)
    {
      var k :| 0 <= k < |reqs| && reqs[k].topic == u;
      assert reqs[k] in kept;
    }
  }

  /** A list that holds a topic at most once: `t` is the topic of its entry k. */
  lemma {:induction false} PurgedAt(reqs: seq<WriteRequest>, t: string, k: nat)
    requires WritesOnce(reqs) && k < |reqs| && reqs[k].topic == t
    ensures Purged(reqs, t) == reqs[..k] + reqs[k + 1..]
    decreases k
  {
    if k == 0 {
      PurgedAbsent(reqs[1..], t);
    } else {
      PurgedAt(reqs[1..], t, k - 1);
      assert reqs[..k] == [reqs[0]] + reqs[1..][..k - 1] && reqs[1..][k..] == reqs[k + 1..];
    }
  }

  lemma {:induction false} PurgedAbsent(reqs: seq<WriteRequest>, t: string)
    requires forall k :: 0 <= k < |reqs| ==> reqs[k].topic != t
    ensures Purged(reqs, t) == reqs
    decreases |reqs|
  {
    if reqs != [] {
      PurgedAbsent(reqs[1..], t);
    }
  }

  lemma {:induction false} WithoutReadAt(topics: seq<string>, t: string, pos: nat)
    requires pos <= |topics| && t !in topics[..pos] && (pos < |topics| ==> topics[pos] == t)
    ensures WithoutRead(topics, t) == if pos < |topics| then topics[..pos] + topics[pos + 1..] else topics
    decreases pos
  {
    if pos > 0 {
      assert topics[0] in topics[..pos] && topics[1..][..pos - 1] == topics[..pos][1..];
      WithoutReadAt(topics[1..], t, pos - 1);
    }
  }
}
