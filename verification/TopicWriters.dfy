/** Writers that publish what arrives on data channels, and the index from a channel to its writer
    (src/topic_writer_data.cpp). */
module TopicWriters {
  import opened Channels

  datatype Writer = Writer(inputs: seq<Channel>, publishing: bool)

  /** `writers` and `dc_to_writer_map`. */
  datatype Writers = Writers(byTopic: map<string, Writer>, index: map<Channel, string>)

  // ----- what the operations do -----

  /** `getForTopic` followed by `addInput`; an entry already in the index is kept. */
  function WithInput(ws: Writers, topic: string, dc: Channel, creates: bool): Writers {
    var w := if topic in ws.byTopic then ws.byTopic[topic] else Writer([], false);
    if dc in w.inputs then ws.(byTopic := ws.byTopic[topic := w])
    else
      Writers(ws.byTopic[topic := Writer(w.inputs + [dc], w.publishing || creates)],
              if dc in ws.index then ws.index else ws.index[dc := topic])
  }

  lemma RegisteredFirst(ws: Writers, topic: string, dc: Channel, creates: bool)
    requires topic !in ws.byTopic
    ensures WithInput(ws.(byTopic := ws.byTopic[topic := Writer([], false)]), topic, dc, creates)
         == WithInput(ws, topic, dc, creates)
  {
    var b, w := ws.byTopic, Writer([dc], creates);
    assert b[topic := Writer([], false)][topic := w] == b[topic := w];
  }

  predicate Feeds(ws: Writers, topic: string, dc: Channel) {
    topic in ws.byTopic && dc in ws.byTopic[topic].inputs
  }

  function Removed(w: Writer, dc: Channel): Writer {
    var rest := Without(w.inputs, dc);
    Writer(rest, w.publishing && rest != [])
  }

  /** `removeInput`; a writer stays registered when its last input goes. */
  function WithoutInput(ws: Writers, topic: string, dc: Channel): Writers {
    if !Feeds(ws, topic, dc) then ws
    else Writers(ws.byTopic[topic := Removed(ws.byTopic[topic], dc)], ws.index - {dc})
  }

  /** What removing one input of each topic of `closed` leaves, in whatever order it is done. */
  function DropInputs(ws: Writers, closed: map<string, Channel>): Writers {
    Writers(
      map t | t in ws.byTopic
        :: if t in closed && closed[t] in ws.byTopic[t].inputs then Removed(ws.byTopic[t], closed[t])
           else ws.byTopic[t],
      ws.index - set t | t in closed && Feeds(ws, t, closed[t]) :: closed[t])
  }

  lemma DropStep(ws: Writers, closed: map<string, Channel>, topic: string, dc: Channel)
    requires topic !in closed
    ensures WithoutInput(DropInputs(ws, closed), topic, dc) == DropInputs(ws, closed[topic := dc])
  {
    var d, d' := DropInputs(ws, closed), DropInputs(ws, closed[topic := dc]);
    var closed' := closed[topic := dc];
    assert WithoutInput(d, topic, dc).byTopic == d'.byTopic;
    assert Feeds(d, topic, dc) <==> Feeds(ws, topic, dc);
    var gone := set t | t in closed && Feeds(ws, t, closed[t]) :: closed[t];
    var gone' := set t | t in closed' && Feeds(ws, t, closed'[t]) :: closed'[t];
    assert gone' == if Feeds(ws, topic, dc) then gone + {dc} else gone by {
      forall t | t in closed && Feeds(ws, t, closed[t])
        ensures closed[t] in gone'
      {
        assert closed'[t] == closed[t];
      }
      if Feeds(ws, topic, dc) {
        assert closed'[topic] == dc;
      }
    }
  }

  // ----- the index -----

  /** The index agrees with the inputs, every writer lists a channel once, and only writers with
      inputs publish. */
  ghost predicate Indexed(ws: Writers) {
    && (forall t :: t in ws.byTopic ==>
          Distinct(ws.byTopic[t].inputs) && (ws.byTopic[t].publishing ==> ws.byTopic[t].inputs != []))
    && (forall t, dc :: Feeds(ws, t, dc) ==> dc in ws.index && ws.index[dc] == t)
    && (forall dc :: dc in ws.index ==> Feeds(ws, ws.index[dc], dc))
  }

  /** The index finds a writer exactly for the channels that are an input of it, and no channel is an
      input of two writers. */
  lemma FoundIffFed(ws: Writers, dc: Channel, topic: string, other: string)
    requires Indexed(ws)
    ensures dc in ws.index && ws.index[dc] == topic <==> Feeds(ws, topic, dc)
    ensures dc !in ws.index <==> forall t :: !Feeds(ws, t, dc)
    ensures Feeds(ws, topic, dc) && Feeds(ws, other, dc) ==> topic == other
  {
  }

  function Inputs(ws: Writers): set<(string, Channel)> {
    set t, x | t in ws.byTopic && x in ws.byTopic[t].inputs :: (t, x)
  }

  lemma WithInputFeeds(ws: Writers, topic: string, dc: Channel, creates: bool)
    ensures forall t, x :: Feeds(WithInput(ws, topic, dc, creates), t, x) <==>
              Feeds(ws, t, x) || (t == topic && x == dc)
  {
  }

  lemma WithInputIndexed(ws: Writers, topic: string, dc: Channel, creates: bool)
    requires Indexed(ws) && dc !in ws.index
    ensures Indexed(WithInput(ws, topic, dc, creates))
  {
    var ws' := WithInput(ws, topic, dc, creates);
    WithInputFeeds(ws, topic, dc, creates);
    assert !Feeds(ws, topic, dc);
    forall t, x | Feeds(ws', t, x)
      ensures x in ws'.index && ws'.index[x] == t
    {
      assert Feeds(ws, t, x) || (t == topic && x == dc);
    }
    forall x | x in ws'.index
      ensures Feeds(ws', ws'.index[x], x)
    {
      assert x == dc || Feeds(ws, ws.index[x], x);
    }
  }

  /** A new channel, or one the writer has already, keeps the index exact. */
  lemma WithInputAdds(ws: Writers, topic: string, dc: Channel, creates: bool)
    requires Indexed(ws) && (dc in ws.index ==> ws.index[dc] == topic)
    ensures Indexed(WithInput(ws, topic, dc, creates))
    ensures Inputs(WithInput(ws, topic, dc, creates)) == Inputs(ws) + {(topic, dc)}
  {
    WithInputFeeds(ws, topic, dc, creates);
    if Feeds(ws, topic, dc) {
      assert WithInput(ws, topic, dc, creates).byTopic == ws.byTopic;
      return;
    }
    WithInputIndexed(ws, topic, dc, creates);
  }

  lemma DropInputsFeeds(ws: Writers, closed: map<string, Channel>)
    requires Indexed(ws)
    ensures forall t, x :: Feeds(DropInputs(ws, closed), t, x) <==> Feeds(ws, t, x) && (t, x) !in Entries(closed)
  {
    var ws' := DropInputs(ws, closed);
    forall t | t in ws.byTopic && t in closed
      ensures forall x :: x in Without(ws.byTopic[t].inputs, closed[t]) <==> x in ws.byTopic[t].inputs && x != closed[t]
    {
      WithoutMembers(ws.byTopic[t].inputs, closed[t]);
    }
  }

  /** Dropping one channel of each of some topics removes exactly these, from the writers and from the
      index. */
  lemma DropInputsRemoves(ws: Writers, closed: map<string, Channel>)
    requires Indexed(ws)
    ensures Indexed(DropInputs(ws, closed))
    ensures Inputs(DropInputs(ws, closed)) == Inputs(ws) - Entries(closed)
  {
    var ws' := DropInputs(ws, closed);
    DropInputsFeeds(ws, closed);
    forall t | t in ws.byTopic && t in closed
      ensures Distinct(Without(ws.byTopic[t].inputs, closed[t]))
    {
      WithoutMembers(ws.byTopic[t].inputs, closed[t]);
    }
    forall t, x | Feeds(ws', t, x)
      ensures x in ws'.index && ws'.index[x] == t
    {
      assert Feeds(ws, t, x);
    }
    forall x | x in ws'.index
      ensures Feeds(ws', ws'.index[x], x)
    {
      assert Feeds(ws, ws.index[x], x);
    }
  }

  // ----- the objects -----

  class TopicWriterData {
    const topic: string
    var inputs: seq<Channel>
    var publishing: bool  // `pub` is not null

    function View(): Writer
      reads this
    {
      Writer(inputs, publishing)
    }

    constructor (topic: string)
      ensures this.topic == topic && View() == Writer([], false)
    {
      this.topic, inputs, publishing := topic, [], false;
    }

    /** The part of `addInput` on the object itself. */
    method Add(dc: Channel, creates: bool) returns (added: bool)
      modifies this
      ensures added <==> dc !in old(inputs)
      ensures View() == if added then Writer(old(inputs) + [dc], old(publishing) || creates) else old(View())
    {
      for i := 0 to |inputs|
        invariant dc !in inputs[..i]
      {
        if inputs[i] == dc {
          return false;
        }
      }
      inputs := inputs + [dc];
      if !publishing {
        publishing := creates;
      }
      return true;
    }

    /** The part of `removeInput` on the object itself. */
    method Remove(dc: Channel) returns (removed: bool)
      modifies this
      ensures removed <==> dc in old(inputs)
      ensures View() == if removed then Removed(old(View()), dc) else old(View())
    {
      var i := 0;
      while i < |inputs| && inputs[i] != dc
        invariant i <= |inputs| && dc !in inputs[..i]
      {
        i := i + 1;
      }
      if i == |inputs| {
        return false;
      }
      assert inputs == inputs[..i] + [dc] + inputs[i + 1..];
      WithoutSplits(inputs, dc, inputs[..i], inputs[i + 1..]);
      inputs := inputs[..i] + inputs[i + 1..];
      if inputs == [] {
        publishing := false;
      }
      return true;
    }
  }

  /** The static members of `TopicWriterData`. */
  class WriterRegistry {
    var writers: map<string, TopicWriterData>
    var dcToWriter: map<Channel, TopicWriterData>
    ghost var view: Writers
    ghost var repr: set<object>

    ghost predicate Valid()
      reads this, repr
    {
      && this in repr && view.byTopic.Keys == writers.Keys && view.index.Keys == dcToWriter.Keys
      && (forall t :: t in writers ==>
            var tw: object := writers[t]; tw in repr && writers[t].topic == t && view.byTopic[t] == writers[t].View())
      && (forall dc :: dc in dcToWriter ==>
            var t := view.index[dc]; t in writers && writers[t] == dcToWriter[dc])
    }

    constructor ()
      ensures Valid() && view == Writers(map[], map[]) && fresh(repr)
    {
      writers, dcToWriter, view, repr := map[], map[], Writers(map[], map[]), {this};
    }

    method GetOrCreate(topic: string) returns (tw: TopicWriterData)
      requires Valid()
      modifies this
      ensures Valid() && fresh(repr - old(repr))
      ensures topic in writers && writers[topic] == tw
      ensures view == if topic in old(view).byTopic then old(view)
                      else old(view).(byTopic := old(view).byTopic[topic := Writer([], false)])
    {
      if topic in writers {
        return writers[topic];
      }
      tw := new TopicWriterData(topic);
      writers, repr := writers[topic := tw], repr + {tw};
      view := view.(byTopic := view.byTopic[topic := Writer([], false)]);
    }

    method GetForTopic(topic: string) returns (tw: TopicWriterData?)
      ensures tw == if topic in writers then writers[topic] else null
    {
      if topic in writers {
        return writers[topic];
      }
      return null;
    }

    /** Given the index, this finds exactly the writer that has `dc` among its inputs. */
    method GetForDC(dc: Channel) returns (tw: TopicWriterData?)
      requires Valid() && Indexed(view)
      ensures tw != null <==> exists t :: Feeds(view, t, dc)
      ensures tw != null ==> tw.topic in writers && writers[tw.topic] == tw && Feeds(view, tw.topic, dc)
    {
      if dc in dcToWriter {
        assert Feeds(view, view.index[dc], dc);
        return dcToWriter[dc];
      }
      return null;
    }

    /** `onData`: a binary message is published on the topic of the writer that has the channel among
        its inputs, if that writer has a publisher. */
    method OnData(dc: Channel, binary: bool) returns (handled: bool, published: bool, topic: string)
      requires Valid() && Indexed(view)
      ensures handled <==> binary && exists t :: Feeds(view, t, dc)
      ensures handled ==> Feeds(view, topic, dc) && (published <==> view.byTopic[topic].publishing)
      ensures !handled ==> !published
    {
      if !binary {
        return false, false, "";
      }
      var tw := GetForDC(dc);
      if tw == null {
        return false, false, "";
      }
      return true, tw.publishing, tw.topic;
    }

    method AddInput(tw: TopicWriterData, dc: Channel, creates: bool) returns (added: bool)
      requires Valid() && tw.topic in writers && writers[tw.topic] == tw
      modifies this`dcToWriter, this`view, tw
      ensures Valid() && view == WithInput(old(view), tw.topic, dc, creates)
      ensures added <==> dc !in old(tw.inputs)
    {
      added := tw.Add(dc, creates);
      view := view.(byTopic := view.byTopic[tw.topic := tw.View()]);
      if added {
        Index(tw, dc);
      }
    }

    /** `emplace` of the index. */
    method Index(tw: TopicWriterData, dc: Channel)
      requires Valid() && tw.topic in writers && writers[tw.topic] == tw
      modifies this`dcToWriter, this`view
      ensures Valid()
      ensures view == old(view).(index := if dc in old(view).index then old(view).index
              else old(view).index[dc := tw.topic])
    {
      if dc !in dcToWriter {
        dcToWriter := dcToWriter[dc := tw];
        view := view.(index := view.index[dc := tw.topic]);
      }
    }

    /** `erase` of the index. */
    method Unindex(dc: Channel)
      requires Valid()
      modifies this`dcToWriter, this`view
      ensures Valid() && view == old(view).(index := old(view).index - {dc})
    {
      if dc in dcToWriter {
        dcToWriter := dcToWriter - {dc};
      }
      view := view.(index := view.index - {dc});
    }

    method RemoveInput(tw: TopicWriterData, dc: Channel) returns (removed: bool)
      requires Valid() && tw.topic in writers && writers[tw.topic] == tw
      modifies this`dcToWriter, this`view, tw
      ensures Valid() && view == WithoutInput(old(view), tw.topic, dc)
      ensures removed <==> dc in old(tw.inputs)
    {
      removed := tw.Remove(dc);
      if !removed {
        return;
      }
      view := view.(byTopic := view.byTopic[tw.topic := tw.View()]);
      Unindex(dc);
    }

    /** The two calls a peer makes when it subscribes. */
    method Subscribe(topic: string, dc: Channel, creates: bool)
      requires Valid()
      modifies repr
      ensures Valid() && fresh(repr - old(repr))
      ensures view == WithInput(old(view), topic, dc, creates)
    {
      var tw := GetOrCreate(topic);
      if topic !in old(view).byTopic {
        RegisteredFirst(old(view), topic, dc, creates);
      }
      var _ := AddInput(tw, dc, creates);
    }

    /** The calls a peer makes when it unsubscribes. */
    method Unsubscribe(topic: string, dc: Channel)
      requires Valid()
      modifies repr
      ensures Valid() && repr == old(repr)
      ensures view == WithoutInput(old(view), topic, dc)
    {
      var tw := GetForTopic(topic);
      if tw != null {
        var _ := RemoveInput(tw, dc);
      }
    }
  }
}
