/** Splitting a message tree into JSON with numbered placeholders plus binary attachments, and
    rebuilding it (sioclient/internal/sio_packet.cpp, the `accept_message` family and `from_json`). */
module Placeholders {
  import opened SioMessage

  const PLACEHOLDER := "_placeholder"
  const NUM := "num"

  // ----- accept_message -----

  function PlaceholderFor(index: nat): Json {
    JObject([Entry(PLACEHOLDER, JBool(true)), Entry(NUM, JInt(ToInt32(index)))])
  }

  /** What `accept_message` leaves in `val` and in the shared `buffers`. */
  function Accepted(m: Message, buffers: seq<string>): (Json, seq<string>)
    decreases m, 1
  {
    match m
    case NoMessage => (JNull, buffers)
    case NullMessage => (JNull, buffers)
    case BoolMessage(b) => (JBool(b), buffers)
    case IntMessage(i) => (JInt(i), buffers)
    case DoubleMessage(d) => (JDouble(d), buffers)
    case StringMessage(s) => (JString(s), buffers)
    case BinaryMessage(bytes) => (PlaceholderFor(|buffers|), buffers + [bytes])
    case ArrayMessage(items) =>
      var (js, bs) := AcceptedItems(items, buffers);
      (JArray(js), bs)
    case ObjectMessage(entries) =>
      var (js, bs) := AcceptedEntries(entries, buffers);
      (JObject(js), bs)
  }

  function AcceptedItems(items: seq<Message>, buffers: seq<string>): (r: (seq<Json>, seq<string>))
    ensures |r.0| == |items|
    decreases items, 0
  {
    if items == [] then ([], buffers)
    else
      var (j, bs) := Accepted(items[0], buffers);
      var (js, rest) := AcceptedItems(items[1..], bs);
      ([j] + js, rest)
  }

  function AcceptedEntries(entries: seq<Entry<Message>>, buffers: seq<string>): (r: (seq<Entry<Json>>, seq<string>))
    ensures |r.0| == |entries|
    decreases entries, 0
  {
    if entries == [] then ([], buffers)
    else
      var (j, bs) := Accepted(entries[0].value, buffers);
      var (js, rest) := AcceptedEntries(entries[1..], bs);
      ([Entry(entries[0].key, j)] + js, rest)
  }

  lemma {:induction false} AcceptedKeys(entries: seq<Entry<Message>>, buffers: seq<string>)
    ensures forall i :: 0 <= i < |entries| ==> AcceptedEntries(entries, buffers).0[i].key == entries[i].key
  {
    if entries != [] {
      AcceptedKeys(entries[1..], Accepted(entries[0].value, buffers).1);
    }
  }

  /** The `buffers` vector that one `accept` call shares between all levels of the tree. */
  class BufferList {
    var items: seq<string>

    constructor ()
      ensures items == []
    {
      items := [];
    }

    method PushBack(b: string)
      modifies this
      ensures items == old(items) + [b]
    {
      items := items + [b];
    }
  }

  method AcceptMessage(m: Message, buffers: BufferList) returns (val: Json)
    modifies buffers
    ensures (val, buffers.items) == Accepted(m, old(buffers.items))
    decreases m, 1
  {
    match m
    case NoMessage => val := JNull;
    case NullMessage => val := JNull;
    case BoolMessage(b) => val := JBool(b);
    case IntMessage(i) => val := JInt(i);
    case DoubleMessage(d) => val := JDouble(d);
    case StringMessage(s) => val := JString(s);
    case BinaryMessage(bytes) =>
      val := PlaceholderFor(|buffers.items|);
      buffers.PushBack(bytes);
    case ArrayMessage(items) => val := AcceptArray(items, buffers);
    case ObjectMessage(entries) => val := AcceptObject(entries, buffers);
  }

  method AcceptArray(items: seq<Message>, buffers: BufferList) returns (val: Json)
    modifies buffers
    ensures (val, buffers.items) == Accepted(ArrayMessage(items), old(buffers.items))
    decreases items, 2
  {
    var children: seq<Json> := [];
    ghost var all := AcceptedItems(items, buffers.items);
    assert items[0..] == items;
    for i := 0 to |items|
      invariant all.0 == children + AcceptedItems(items[i..], buffers.items).0
      invariant all.1 == AcceptedItems(items[i..], buffers.items).1
    {
      var child := AcceptMessage(items[i], buffers);
      assert items[i..][1..] == items[i + 1..];
      children := children + [child];
    }
    assert items[|items|..] == [];
    assert children == all.0;
    val := JArray(children);
  }

  lemma AcceptedEntriesAt(entries: seq<Entry<Message>>, i: nat, buffers: seq<string>)
    requires i < |entries|
    ensures var (j, bs) := Accepted(entries[i].value, buffers);
            var (js, rest) := AcceptedEntries(entries[i + 1..], bs);
            AcceptedEntries(entries[i..], buffers) == ([Entry(entries[i].key, j)] + js, rest)
  {
    assert entries[i..][1..] == entries[i + 1..];
  }

  method AcceptObject(entries: seq<Entry<Message>>, buffers: BufferList) returns (val: Json)
    modifies buffers
    ensures (val, buffers.items) == Accepted(ObjectMessage(entries), old(buffers.items))
    decreases entries, 2
  {
    var members: seq<Entry<Json>> := [];
    ghost var all := AcceptedEntries(entries, buffers.items);
    assert entries[0..] == entries;
    for i := 0 to |entries|
      invariant all.0 == members + AcceptedEntries(entries[i..], buffers.items).0
      invariant all.1 == AcceptedEntries(entries[i..], buffers.items).1
    {
      AcceptedEntriesAt(entries, i, buffers.items);
      var value := AcceptMessage(entries[i].value, buffers);
      members := members + [Entry(entries[i].key, value)];
    }
    assert entries[|entries|..] == [];
    assert members == all.0;
    val := JObject(members);
  }

  // ----- from_json -----

  /** `FindMember(kBIN_PLACE_HOLDER)` found and `GetBool()` true. */
  predicate IsPlaceholder(members: seq<Entry<Json>>) {
    HasKey(members, PLACEHOLDER) && Find(members, PLACEHOLDER) == JBool(true)
  }

  /** `from_json`; a placeholder without an int `num`, where RapidJSON asserts, gives no message. */
  function FromJson(value: Json, buffers: seq<string>): Message
    decreases value, 1
  {
    match value
    case JInt(i) => if IsInt64(i) then IntMessage(i) else NoMessage
    case JDouble(d) => DoubleMessage(d)
    case JString(s) => StringMessage(s)
    case JArray(items) => ArrayMessage(FromItems(items, buffers))
    case JObject(members) =>
      if IsPlaceholder(members) then
        if HasKey(members, NUM) && Find(members, NUM).JInt? then
          var num := Find(members, NUM).i;
          if 0 <= num < ToInt32(|buffers|) && num < |buffers| then BinaryMessage(buffers[num]) else NoMessage
        else NoMessage
      else ObjectMessage(FromMembers(members, [], buffers))
    case JBool(b) => BoolMessage(b)
    case JNull => NullMessage
  }

  function FromItems(items: seq<Json>, buffers: seq<string>): (r: seq<Message>)
    ensures |r| == |items|
    decreases items, 0
  {
    if items == [] then [] else [FromJson(items[0], buffers)] + FromItems(items[1..], buffers)
  }

  /** The member loop: each member is stored under its key in the map built so far. */
  function FromMembers(members: seq<Entry<Json>>, built: seq<Entry<Message>>, buffers: seq<string>): seq<Entry<Message>>
    decreases members, 0
  {
    if members == [] then built
    else FromMembers(members[1..], MapSet(built, members[0].key, FromJson(members[0].value, buffers)), buffers)
  }

  // ----- the attachments of a tree -----

  /** The binary leaves of a tree in traversal order. */
  function Binaries(m: Message): seq<string>
    decreases m, 1
  {
    match m
    case BinaryMessage(bytes) => [bytes]
    case ArrayMessage(items) => ItemBinaries(items)
    case ObjectMessage(entries) => EntryBinaries(entries)
    case _ => []
  }

  function ItemBinaries(items: seq<Message>): seq<string>
    decreases items, 0
  {
    if items == [] then [] else Binaries(items[0]) + ItemBinaries(items[1..])
  }

  function EntryBinaries(entries: seq<Entry<Message>>): seq<string>
    decreases entries, 0
  {
    if entries == [] then [] else Binaries(entries[0].value) + EntryBinaries(entries[1..])
  }

  /** `accept_message` appends exactly the binary leaves, in traversal order. */
  lemma {:induction false} AcceptedAppends(m: Message, buffers: seq<string>)
    ensures Accepted(m, buffers).1 == buffers + Binaries(m)
    decreases m, 1
  {
    match m
    case ArrayMessage(items) => AcceptedItemsAppends(items, buffers);
    case ObjectMessage(entries) => AcceptedEntriesAppends(entries, buffers);
    case _ =>
  }

  lemma {:induction false} AcceptedItemsAppends(items: seq<Message>, buffers: seq<string>)
    ensures AcceptedItems(items, buffers).1 == buffers + ItemBinaries(items)
    decreases items, 0
  {
    if items != [] {
      AcceptedAppends(items[0], buffers);
      AcceptedItemsAppends(items[1..], Accepted(items[0], buffers).1);
    }
  }

  lemma {:induction false} AcceptedEntriesAppends(entries: seq<Entry<Message>>, buffers: seq<string>)
    ensures AcceptedEntries(entries, buffers).1 == buffers + EntryBinaries(entries)
    decreases entries, 0
  {
    if entries != [] {
      AcceptedAppends(entries[0].value, buffers);
      AcceptedEntriesAppends(entries[1..], Accepted(entries[0].value, buffers).1);
    }
  }

  /** The `num` fields of the placeholders of a JSON tree, in traversal order. */
  function PlaceholderNums(j: Json): seq<int>
    decreases j, 1
  {
    match j
    case JArray(items) => ItemNums(items)
    case JObject(members) =>
      if IsPlaceholder(members) && HasKey(members, NUM) && Find(members, NUM).JInt? then [Find(members, NUM).i]
      else MemberNums(members)
    case _ => []
  }

  function ItemNums(items: seq<Json>): seq<int>
    decreases items, 0
  {
    if items == [] then [] else PlaceholderNums(items[0]) + ItemNums(items[1..])
  }

  function MemberNums(members: seq<Entry<Json>>): seq<int>
    decreases members, 0
  {
    if members == [] then [] else PlaceholderNums(members[0].value) + MemberNums(members[1..])
  }

  function Range(from: nat, count: nat): (r: seq<int>)
    ensures |r| == count && forall k :: 0 <= k < count ==> r[k] == from + k
  {
    seq(count, k => from + k)
  }

  // ----- well-formed trees -----

  /** What the C++ types guarantee of a tree without null pointers: 64-bit integers and maps with
      sorted keys. A `_placeholder` entry, if any, is a boolean, as `GetBool` demands. */
  ghost predicate WellFormed(m: Message)
    decreases m
  {
    match m
    case NoMessage => false
    case IntMessage(i) => IsInt64(i)
    case ArrayMessage(items) => forall k :: 0 <= k < |items| ==> WellFormed(items[k])
    case ObjectMessage(entries) =>
      && Sorted(entries)
      && (forall k :: 0 <= k < |entries| ==> WellFormed(entries[k].value))
      && (HasKey(entries, PLACEHOLDER) ==> Find(entries, PLACEHOLDER).BoolMessage?)
    case _ => true
  }

  /** A well-formed tree is written to one that RapidJSON reads back. */
  lemma {:induction false} AcceptedWritable(m: Message, buffers: seq<string>)
    requires WellFormed(m)
    ensures Writable(Accepted(m, buffers).0)
    decreases m, 1
  {
    match m
    case ArrayMessage(items) => ItemsWritable(items, buffers);
    case ObjectMessage(entries) => EntriesWritable(entries, buffers);
    case _ =>
  }

  lemma {:induction false} ItemsWritable(items: seq<Message>, buffers: seq<string>)
    requires forall k :: 0 <= k < |items| ==> WellFormed(items[k])
    ensures forall k :: 0 <= k < |items| ==> Writable(AcceptedItems(items, buffers).0[k])
    decreases items, 0
  {
    if items != [] {
      AcceptedWritable(items[0], buffers);
      ItemsWritable(items[1..], Accepted(items[0], buffers).1);
    }
  }

  lemma {:induction false} EntriesWritable(entries: seq<Entry<Message>>, buffers: seq<string>)
    requires forall k :: 0 <= k < |entries| ==> WellFormed(entries[k].value)
    ensures forall k :: 0 <= k < |entries| ==> Writable(AcceptedEntries(entries, buffers).0[k].value)
    decreases entries, 0
  {
    if entries != [] {
      AcceptedWritable(entries[0].value, buffers);
      EntriesWritable(entries[1..], Accepted(entries[0].value, buffers).1);
    }
  }

  /** No object of the tree maps `_placeholder` to true. */
  ghost predicate Unmarked(m: Message)
    decreases m
  {
    match m
    case ArrayMessage(items) => forall k :: 0 <= k < |items| ==> Unmarked(items[k])
    case ObjectMessage(entries) =>
      && !(HasKey(entries, PLACEHOLDER) && Find(entries, PLACEHOLDER) == BoolMessage(true))
      && forall k :: 0 <= k < |entries| ==> Unmarked(entries[k].value)
    case _ => true
  }

  ghost predicate Below<U, V>(low: seq<Entry<U>>, high: seq<Entry<V>>) {
    forall i, j :: 0 <= i < |low| && 0 <= j < |high| ==> KeyLess(low[i].key, high[j].key)
  }

  /** The object reads back as a placeholder iff it maps `_placeholder` to true. */
  lemma MarkedIsPlaceholder(entries: seq<Entry<Message>>, buffers: seq<string>)
    requires WellFormed(ObjectMessage(entries))
    ensures IsPlaceholder(AcceptedEntries(entries, buffers).0)
        <==> (HasKey(entries, PLACEHOLDER) && Find(entries, PLACEHOLDER) == BoolMessage(true))
  {
    var members := AcceptedEntries(entries, buffers).0;
    AcceptedKeys(entries, buffers);
    assert HasKey(entries, PLACEHOLDER) <==> HasKey(members, PLACEHOLDER);
    if HasKey(entries, PLACEHOLDER) {
      FindAccepted(entries, buffers, PLACEHOLDER);
    }
  }

  lemma {:induction false} FindAccepted(entries: seq<Entry<Message>>, buffers: seq<string>, key: string)
    requires HasKey(entries, key) && HasKey(AcceptedEntries(entries, buffers).0, key)
    requires Find(entries, key).BoolMessage?
    ensures Find(AcceptedEntries(entries, buffers).0, key) == JBool(Find(entries, key).b)
    decreases entries
  {
    var (j, bs) := Accepted(entries[0].value, buffers);
    var members := AcceptedEntries(entries, buffers).0;
    if entries[0].key != key {
      assert members[1..] == AcceptedEntries(entries[1..], bs).0;
      assert HasKey(entries[1..], key) by {
        var i :| 0 <= i < |entries| && entries[i].key == key;
        assert entries[1..][i - 1].key == key;
      }
      assert HasKey(members[1..], key) by {
        var i :| 0 <= i < |members| && members[i].key == key;
        assert members[1..][i - 1].key == key;
      }
      FindAccepted(entries[1..], bs, key);
    }
  }

  lemma Regroup(a: seq<string>, b: seq<string>, c: seq<string>, d: seq<string>)
    ensures a + (b + c) + d == a + b + (c + d)
    ensures a + (b + c) + d == (a + b) + c + d
  {
  }

  lemma PlaceholderReads(index: nat)
    requires index < 0x8000_0000
    ensures PlaceholderFor(index).JObject? && IsPlaceholder(PlaceholderFor(index).members)
    ensures HasKey(PlaceholderFor(index).members, NUM) && Find(PlaceholderFor(index).members, NUM) == JInt(index)
  {
    var members := PlaceholderFor(index).members;
    assert members[0].key == PLACEHOLDER && members[1].key == NUM && PLACEHOLDER[0] != NUM[0];
    assert members[1..][0].key == NUM;
  }

  /** A tree survives the split and the rebuild, from any buffer list and with any buffers appended
      later, exactly when no object in it maps `_placeholder` to true. */
  lemma {:induction false} ExtractionInvertible(m: Message, buffers: seq<string>, later: seq<string>)
    requires WellFormed(m)
    requires |buffers| + |Binaries(m)| + |later| < 0x8000_0000
    ensures FromJson(Accepted(m, buffers).0, buffers + Binaries(m) + later) == m <==> Unmarked(m)
    decreases m, 1
  {
    if m.BinaryMessage? {
      BinaryInvertible(m.bytes, buffers, later);
    } else if m.ArrayMessage? {
      ItemsInvertible(m.items, buffers, later);
    } else if m.ObjectMessage? {
      ObjectInvertible(m.entries, buffers, later);
    }
  }

  lemma BinaryInvertible(bytes: string, buffers: seq<string>, later: seq<string>)
    requires |buffers| + 1 + |later| < 0x8000_0000
    ensures FromJson(Accepted(BinaryMessage(bytes), buffers).0, buffers + [bytes] + later) == BinaryMessage(bytes)
  {
    PlaceholderReads(|buffers|);
    FromPlaceholder(PlaceholderFor(|buffers|).members, |buffers|, buffers + [bytes] + later);
  }

  lemma FromPlaceholder(members: seq<Entry<Json>>, index: nat, buffers: seq<string>)
    requires IsPlaceholder(members) && HasKey(members, NUM) && Find(members, NUM) == JInt(index)
    requires index < |buffers| < 0x8000_0000
    ensures FromJson(JObject(members), buffers) == BinaryMessage(buffers[index])
  {
  }

  lemma {:induction false} ObjectInvertible(entries: seq<Entry<Message>>, buffers: seq<string>, later: seq<string>)
    requires WellFormed(ObjectMessage(entries))
    requires |buffers| + |EntryBinaries(entries)| + |later| < 0x8000_0000
    ensures var m := ObjectMessage(entries);
            FromJson(Accepted(m, buffers).0, buffers + EntryBinaries(entries) + later) == m <==> Unmarked(m)
    decreases entries, 1
  {
    MarkedIsPlaceholder(entries, buffers);
    EntriesInvertible(entries, [], buffers, later);
    assert [] + entries == entries;
    FromObject(AcceptedEntries(entries, buffers).0, buffers + EntryBinaries(entries) + later);
  }

  lemma FromObject(members: seq<Entry<Json>>, buffers: seq<string>)
    ensures IsPlaceholder(members) ==> !FromJson(JObject(members), buffers).ObjectMessage?
    ensures !IsPlaceholder(members) ==>
            FromJson(JObject(members), buffers) == ObjectMessage(FromMembers(members, [], buffers))
  {
  }

  lemma {:induction false} ItemsInvertible(items: seq<Message>, buffers: seq<string>, later: seq<string>)
    requires forall k :: 0 <= k < |items| ==> WellFormed(items[k])
    requires |buffers| + |ItemBinaries(items)| + |later| < 0x8000_0000
    ensures FromItems(AcceptedItems(items, buffers).0, buffers + ItemBinaries(items) + later) == items
        <==> forall k :: 0 <= k < |items| ==> Unmarked(items[k])
    decreases items, 0
  {
    if items != [] {
      var head, tail := items[0], items[1..];
      var all := buffers + ItemBinaries(items) + later;
      AcceptedAppends(head, buffers);
      var bs := Accepted(head, buffers).1;
      Regroup(buffers, Binaries(head), ItemBinaries(tail), later);
      ExtractionInvertible(head, buffers, ItemBinaries(tail) + later);
      ItemsInvertible(tail, bs, later);
      var back := FromItems(AcceptedItems(items, buffers).0, all);
      assert AcceptedItems(items, buffers).0[1..] == AcceptedItems(tail, bs).0;
      assert back[1..] == FromItems(AcceptedItems(tail, bs).0, all);
      ConsUnmarked(back, items);
    }
  }

  lemma ConsUnmarked(back: seq<Message>, items: seq<Message>)
    requires |back| == |items| > 0
    requires back[0] == items[0] <==> Unmarked(items[0])
    requires back[1..] == items[1..] <==> forall k :: 0 <= k < |items[1..]| ==> Unmarked(items[1..][k])
    ensures back == items <==> forall k :: 0 <= k < |items| ==> Unmarked(items[k])
  {
    assert back == [back[0]] + back[1..] && items == [items[0]] + items[1..];
    assert forall k :: 0 < k < |items| ==> items[k] == items[1..][k - 1];
  }

  lemma {:induction false} EntriesInvertible(entries: seq<Entry<Message>>, built: seq<Entry<Message>>,
                                             buffers: seq<string>, later: seq<string>)
    requires Sorted(entries) && Below(built, entries)
    requires forall k :: 0 <= k < |entries| ==> WellFormed(entries[k].value)
    requires |buffers| + |EntryBinaries(entries)| + |later| < 0x8000_0000
    ensures FromMembers(AcceptedEntries(entries, buffers).0, built, buffers + EntryBinaries(entries) + later) ==
            built + entries
        <==> forall k :: 0 <= k < |entries| ==> Unmarked(entries[k].value)
    decreases entries, 0
  {
    if entries == [] {
      assert built + entries == built;
    } else {
      var head, tail := entries[0], entries[1..];
      var all := buffers + EntryBinaries(entries) + later;
      AcceptedAppends(head.value, buffers);
      var bs := Accepted(head.value, buffers).1;
      Regroup(buffers, Binaries(head.value), EntryBinaries(tail), later);
      ExtractionInvertible(head.value, buffers, EntryBinaries(tail) + later);
      var js := AcceptedEntries(entries, buffers).0;
      assert js[1..] == AcceptedEntries(tail, bs).0;
      var built' := built + [Entry(head.key, FromJson(js[0].value, all))];
      MapSetAppends(built, head.key, FromJson(js[0].value, all));
      assert FromMembers(js, built, all) == FromMembers(js[1..], built', all);
      assert Below(built', tail);
      EntriesStep(entries, built, built', buffers, bs, later, all);
    }
  }

  lemma EntriesStep(entries: seq<Entry<Message>>, built: seq<Entry<Message>>, built': seq<Entry<Message>>,
                    buffers: seq<string>, bs: seq<string>, later: seq<string>, all: seq<string>)
    requires entries != [] && Sorted(entries)
    requires |built'| == |built| + 1 && built'[..|built|] == built && built'[|built|].key == entries[0].key
    requires Below(built', entries[1..])
    requires built'[|built|].value == entries[0].value <==> Unmarked(entries[0].value)
    requires forall k :: 0 <= k < |entries| ==> WellFormed(entries[k].value)
    requires |bs| + |EntryBinaries(entries[1..])| + |later| < 0x8000_0000
    requires all == bs + EntryBinaries(entries[1..]) + later
    ensures FromMembers(AcceptedEntries(entries[1..], bs).0, built', all) == built + entries
        <==> forall k :: 0 <= k < |entries| ==> Unmarked(entries[k].value)
    decreases entries, -1
  {
    var head, tail := entries[0], entries[1..];
    if built'[|built|].value == head.value {
      assert built' == built + [head];
      assert built' + tail == built + entries;
      EntriesInvertible(tail, built', bs, later);
      assert forall k :: 0 < k < |entries| ==> entries[k] == tail[k - 1];
    } else {
      var members := AcceptedEntries(tail, bs).0;
      AcceptedKeys(tail, bs);
      assert Sorted(tail);
      FromMembersKeeps(members, built', all, |built|);
      assert (built + entries)[|built|] == head;
    }
  }

  /** Members with keys above those built so far are appended; what was built stays in place. */
  lemma {:induction false} FromMembersKeeps(members: seq<Entry<Json>>, built: seq<Entry<Message>>,
                                            buffers: seq<string>, k: nat)
    requires k < |built|
    requires Below(built, members) && Sorted(members)
    ensures |FromMembers(members, built, buffers)| > k && FromMembers(members, built, buffers)[k] == built[k]
    decreases members
  {
    if members != [] {
      MapSetAppends(built, members[0].key, FromJson(members[0].value, buffers));
      FromMembersKeeps(members[1..], built + [Entry(members[0].key, FromJson(members[0].value, buffers))], buffers, k);
    }
  }

  /** The placeholders of an unmarked tree are numbered consecutively, in traversal order, from the
      number of buffers there were before. */
  lemma {:induction false} PlaceholdersConsecutive(m: Message, buffers: seq<string>)
    requires WellFormed(m) && Unmarked(m)
    requires |buffers| + |Binaries(m)| < 0x8000_0000
    ensures PlaceholderNums(Accepted(m, buffers).0) == Range(|buffers|, |Binaries(m)|)
    decreases m, 1
  {
    match m
    case BinaryMessage(bytes) =>
      PlaceholderReads(|buffers|);
    case ArrayMessage(items) =>
      ItemsConsecutive(items, buffers);
    case ObjectMessage(entries) =>
      MarkedIsPlaceholder(entries, buffers);
      EntriesConsecutive(entries, buffers);
    case _ =>
  }

  lemma {:induction false} ItemsConsecutive(items: seq<Message>, buffers: seq<string>)
    requires forall k :: 0 <= k < |items| ==> WellFormed(items[k]) && Unmarked(items[k])
    requires |buffers| + |ItemBinaries(items)| < 0x8000_0000
    ensures ItemNums(AcceptedItems(items, buffers).0) == Range(|buffers|, |ItemBinaries(items)|)
    decreases items, 0
  {
    if items != [] {
      AcceptedAppends(items[0], buffers);
      PlaceholdersConsecutive(items[0], buffers);
      ItemsConsecutive(items[1..], Accepted(items[0], buffers).1);
      assert AcceptedItems(items, buffers).0[1..] == AcceptedItems(items[1..], Accepted(items[0], buffers).1).0;
    }
  }

  lemma {:induction false} EntriesConsecutive(entries: seq<Entry<Message>>, buffers: seq<string>)
    requires forall k :: 0 <= k < |entries| ==> WellFormed(entries[k].value) && Unmarked(entries[k].value)
    requires |buffers| + |EntryBinaries(entries)| < 0x8000_0000
    ensures MemberNums(AcceptedEntries(entries, buffers).0) == Range(|buffers|, |EntryBinaries(entries)|)
    decreases entries, 0
  {
    if entries != [] {
      AcceptedAppends(entries[0].value, buffers);
      PlaceholdersConsecutive(entries[0].value, buffers);
      EntriesConsecutive(entries[1..], Accepted(entries[0].value, buffers).1);
      assert AcceptedEntries(entries, buffers).0[1..] ==
             AcceptedEntries(entries[1..], Accepted(entries[0].value, buffers).1).0;
    }
  }
}
