/** What all peers share: the registries of readers and writers (static members of
    src/topic_reader_data.cpp, src/topic_reader_h264.cpp and src/topic_writer_data.cpp) and libdatachannel. */
module Bridges {
  import opened Options
  import opened Channels
  import opened TopicReaders
  import opened TopicWriters
  import opened Reconcile

  /** libdatachannel, as far as it hands out connections, channels and tracks. */
  class Rtc {
    var created: seq<Owner>

    constructor ()
      ensures created == []
    {
      created := [];
    }

    method Create(o: Owner) returns (serial: nat)
      modifies this
      ensures serial == |old(created)| && created == old(created) + [o]
    {
      serial := |created|;
      created := created + [o];
    }
  }

  /** libdatachannel and the registries all peers share. */
  class Bridge {
    const rtc: Rtc
    const readers: ReaderRegistry
    const media: ReaderRegistry
    const writers: WriterRegistry
    ghost var view: Shared
    ghost var repr: set<object>

    ghost predicate Valid()
      reads this, repr
    {
      && {this, rtc, readers, media, writers} <= repr
      && readers.repr <= repr && media.repr <= repr && writers.repr <= repr
      && readers.Valid() && media.Valid() && writers.Valid()
      && readers.repr !! media.repr && readers.repr !! writers.repr && media.repr !! writers.repr
      && {this, rtc} !! readers.repr && {this, rtc} !! media.repr && {this, rtc} !! writers.repr
      && view == Shared(rtc.created, readers.view, media.view, writers.view)
    }

    constructor ()
      ensures Valid() && fresh(repr) && view == Shared([], map[], map[], Writers(map[], map[]))
    {
      var r := new Rtc();
      var a := new ReaderRegistry();
      var b := new ReaderRegistry();
      var c := new WriterRegistry();
      rtc, readers, media, writers := r, a, b, c;
      view := Shared([], map[], map[], Writers(map[], map[]));
      repr := {this, r} + a.repr + b.repr + c.repr;
    }

    method Create(o: Owner) returns (serial: nat)
      requires Valid()
      modifies repr
      ensures Valid() && repr == old(repr)
      ensures serial == |old(view).created| && view == Created(old(view), o)
    {
      serial := rtc.Create(o);
      view := Created(view, o);
    }

    method AddOutput(topic: string, dc: Channel, creates: bool)
      requires Valid()
      modifies repr
      ensures Valid() && fresh(repr - old(repr))
      ensures view == old(view).(readers := WithOutput(old(view).readers, topic, dc, creates))
    {
      readers.Subscribe(topic, dc, creates);
      view, repr := view.(readers := readers.view), repr + readers.repr;
    }

    method AddMediaOutput(topic: string, track: Channel)
      requires Valid()
      modifies repr
      ensures Valid() && fresh(repr - old(repr))
      ensures view == old(view).(media := WithOutput(old(view).media, topic, track, true))
    {
      media.Subscribe(topic, track, true);
      view, repr := view.(media := media.view), repr + media.repr;
    }

    method AddInput(topic: string, dc: Channel, creates: bool)
      requires Valid()
      modifies repr
      ensures Valid() && fresh(repr - old(repr))
      ensures view == old(view).(writers := WithInput(old(view).writers, topic, dc, creates))
    {
      writers.Subscribe(topic, dc, creates);
      view, repr := view.(writers := writers.view), repr + writers.repr;
    }

    method RemoveOutput(topic: string, dc: Channel)
      requires Valid()
      modifies repr
      ensures Valid() && repr == old(repr)
      ensures view == old(view).(readers := WithoutOutput(old(view).readers, topic, dc))
    {
      readers.Unsubscribe(topic, dc);
      view := view.(readers := readers.view);
    }

    method RemoveMediaOutput(topic: string, track: Channel)
      requires Valid()
      modifies repr
      ensures Valid() && repr == old(repr)
      ensures view == old(view).(media := WithoutOutput(old(view).media, topic, track))
    {
      media.Unsubscribe(topic, track);
      view := view.(media := media.view);
    }

    method RemoveInput(topic: string, dc: Channel)
      requires Valid()
      modifies repr
      ensures Valid() && repr == old(repr)
      ensures view == old(view).(writers := WithoutInput(old(view).writers, topic, dc))
    {
      writers.Unsubscribe(topic, dc);
      view := view.(writers := writers.view);
    }
  }
}
