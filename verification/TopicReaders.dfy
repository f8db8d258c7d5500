/** Readers of ROS topics that feed data channels, one per topic and shared by all peers
    (src/topic_reader_data.cpp). */
module TopicReaders {
  import opened Channels

  datatype Reader = Reader(outputs: seq<Channel>, subscribed: bool)

  // ----- what the operations do -----

  /** `addOutput`: a channel is added once; only then is the subscriber created, if that succeeds. */
  function Added(r: Reader, dc: Channel, creates: bool): Reader {
    if dc in r.outputs then r else Reader(r.outputs + [dc], r.subscribed || creates)
  }

  function Removed(r: Reader, dc: Channel): Reader {
    var rest := Without(r.outputs, dc);
    Reader(rest, r.subscribed && rest != [])
  }

  /** `getForTopic` followed by `addOutput`. */
  function WithOutput(rs: map<string, Reader>, topic: string, dc: Channel, creates: bool): map<string, Reader> {
    rs[topic := Added(if topic in rs then rs[topic] else Reader([], false), dc, creates)]
  }

  lemma RegisteredFirst(rs: map<string, Reader>, topic: string, dc: Channel, creates: bool)
    requires topic !in rs
    ensures WithOutput(rs[topic := Reader([], false)], topic, dc, creates) == WithOutput(rs, topic, dc, creates)
  {
    var r := Reader([dc], creates);
    assert rs[topic := Reader([], false)][topic := r] == rs[topic := r];
  }

  /** `removeOutput`, and `destroy` when that leaves no output. */
  function WithoutOutput(rs: map<string, Reader>, topic: string, dc: Channel): map<string, Reader> {
    if topic !in rs then rs
    else
      var r := Removed(rs[topic], dc);
      if r.outputs == [] then rs - {topic} else rs[topic := r]
  }

  /** What removing one output of each topic of `closed` leaves, in whatever order it is done. */
  function DropOutputs(rs: map<string, Reader>, closed: map<string, Channel>): map<string, Reader> {
    map t | t in rs && !(t in closed && Without(rs[t].outputs, closed[t]) == [])
      :: if t in closed then Removed(rs[t], closed[t]) else rs[t]
  }

  lemma DropStep(rs: map<string, Reader>, closed: map<string, Channel>, topic: string, dc: Channel)
    requires topic !in closed
    ensures WithoutOutput(DropOutputs(rs, closed), topic, dc) == DropOutputs(rs, closed[topic := dc])
  {
  }

  // ----- which channel is an output of which reader -----

  function Outputs(rs: map<string, Reader>): set<(string, Channel)> {
    set t, x | t in rs && x in rs[t].outputs :: (t, x)
  }

  /** A registered reader has outputs, each of them once. */
  ghost predicate ReadersOk(rs: map<string, Reader>) {
    forall t :: t in rs ==> rs[t].outputs != [] && Distinct(rs[t].outputs)
  }

  lemma WithOutputAdds(rs: map<string, Reader>, topic: string, dc: Channel, creates: bool)
    requires ReadersOk(rs)
    ensures ReadersOk(WithOutput(rs, topic, dc, creates))
    ensures Outputs(WithOutput(rs, topic, dc, creates)) == Outputs(rs) + {(topic, dc)}
  {
  }

  /** Dropping one channel of each of some topics removes exactly these, and the readers left without
      any output. */
  lemma DropOutputsRemoves(rs: map<string, Reader>, closed: map<string, Channel>)
    requires ReadersOk(rs)
    ensures ReadersOk(DropOutputs(rs, closed))
    ensures Outputs(DropOutputs(rs, closed)) == Outputs(rs) - Entries(closed)
  {
    forall t | t in rs && t in closed
      ensures Distinct(Without(rs[t].outputs, closed[t]))
      ensures forall x :: x in Without(rs[t].outputs, closed[t]) <==> x in rs[t].outputs && x != closed[t]
    {
      WithoutMembers(rs[t].outputs, closed[t]);
    }
    forall t, x
      ensures (t, x) in Outputs(DropOutputs(rs, closed)) <==> (t, x) in Outputs(rs) && !(t in closed && closed[t] == x)
    {
      if t in rs && t in closed && x in Without(rs[t].outputs, closed[t]) {
        assert Without(rs[t].outputs, closed[t]) != [];
      }
    }
  }

  // ----- the objects -----

  class TopicReaderData {
    const topic: string
    var outputs: seq<Channel>
    var subscribed: bool  // `sub` is not null

    function View(): Reader
      reads this
    {
      Reader(outputs, subscribed)
    }

    constructor (topic: string)
      ensures this.topic == topic && View() == Reader([], false)
    {
      this.topic, outputs, subscribed := topic, [], false;
    }

    /** `creates` says whether the ROS node manages to create the subscriber. */
    method AddOutput(dc: Channel, creates: bool) returns (added: bool)
      modifies this
      ensures View() == Added(old(View()), dc, creates)
      ensures added <==> dc !in old(outputs)
    {
      for i := 0 to |outputs|
        invariant dc !in outputs[..i]
      {
        if outputs[i] == dc {
          return false;
        }
      }
      outputs := outputs + [dc];
      if !subscribed {
        subscribed := creates;
      }
      return true;
    }

    method RemoveOutput(dc: Channel) returns (empty: bool)
      modifies this
      ensures View() == Removed(old(View()), dc)
      ensures empty <==> outputs == []
    {
      var i := 0;
      while i < |outputs| && outputs[i] != dc
        invariant i <= |outputs| && dc !in outputs[..i]
      {
        i := i + 1;
      }
      if i < |outputs| {
        assert outputs == outputs[..i] + [dc] + outputs[i + 1..];
        WithoutSplits(outputs, dc, outputs[..i], outputs[i + 1..]);
        outputs := outputs[..i] + outputs[i + 1..];
      } else {
        assert outputs == outputs[..i];
        AbsentStays(outputs, dc);
      }
      if outputs == [] {
        subscribed := false;
        return true;
      }
      return false;
    }
  }

  /** The static members of `TopicReaderData`. */
  class ReaderRegistry {
    var readers: map<string, TopicReaderData>
    ghost var view: map<string, Reader>
    ghost var repr: set<object>

    ghost predicate Valid()
      reads this, repr
    {
      && this in repr && view.Keys == readers.Keys
      && forall t :: t in readers ==>
           var tr: object := readers[t]; tr in repr && readers[t].topic == t && view[t] == readers[t].View()
    }

    constructor ()
      ensures Valid() && view == map[] && fresh(repr)
    {
      readers, view, repr := map[], map[], {this};
    }

    /** `getForTopic` with the arguments for a new reader. */
    method GetOrCreate(topic: string) returns (tr: TopicReaderData)
      requires Valid()
      modifies this
      ensures Valid() && fresh(repr - old(repr))
      ensures topic in readers && readers[topic] == tr
      ensures view == if topic in old(view) then old(view) else old(view)[topic := Reader([], false)]
    {
      if topic in readers {
        return readers[topic];
      }
      tr := new TopicReaderData(topic);
      readers, view, repr := readers[topic := tr], view[topic := Reader([], false)], repr + {tr};
    }

    method GetForTopic(topic: string) returns (tr: TopicReaderData?)
      ensures tr == if topic in readers then readers[topic] else null
    {
      if topic in readers {
        return readers[topic];
      }
      return null;
    }

    method Destroy(topic: string)
      requires Valid()
      modifies this`readers, this`view
      ensures Valid() && view == old(view) - {topic}
    {
      if topic in readers {
        readers := readers - {topic};
      }
      view := view - {topic};
    }

    /** `addOutput` of a registered reader. */
    method Add(tr: TopicReaderData, dc: Channel, creates: bool)
      requires Valid() && tr.topic in readers && readers[tr.topic] == tr
      modifies this`view, tr
      ensures Valid() && view == old(view)[tr.topic := Added(old(view)[tr.topic], dc, creates)]
    {
      var _ := tr.AddOutput(dc, creates);
      view := view[tr.topic := tr.View()];
    }

    /** `removeOutput` of a registered reader. */
    method Remove(tr: TopicReaderData, dc: Channel) returns (empty: bool)
      requires Valid() && tr.topic in readers && readers[tr.topic] == tr
      modifies this`view, tr
      ensures Valid() && view == old(view)[tr.topic := Removed(old(view)[tr.topic], dc)]
      ensures empty <==> view[tr.topic].outputs == []
    {
      empty := tr.RemoveOutput(dc);
      view := view[tr.topic := tr.View()];
    }

    /** The two calls a peer makes when it subscribes. */
    method Subscribe(topic: string, dc: Channel, creates: bool)
      requires Valid()
      modifies repr
      ensures Valid() && fresh(repr - old(repr))
      ensures view == WithOutput(old(view), topic, dc, creates)
    {
      var tr := GetOrCreate(topic);
      if topic !in old(view) {
        RegisteredFirst(old(view), topic, dc, creates);
      }
      Add(tr, dc, creates);
    }

    /** The calls a peer makes when it unsubscribes. */
    method Unsubscribe(topic: string, dc: Channel)
      requires Valid()
      modifies repr
      ensures Valid() && repr == old(repr)
      ensures view == WithoutOutput(old(view), topic, dc)
    {
      var tr := GetForTopic(topic);
      if tr != null {
        var empty := Remove(tr, dc);
        if empty {
          Destroy(topic);
        }
      }
    }
  }
}
