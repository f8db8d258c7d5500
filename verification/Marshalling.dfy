/** Translation between ROS messages and message trees for generic service calls
    (src/generic_services.cpp). */
module Marshalling {
  import opened SioMessage
  import opened RosTypes
  import opened Options

  datatype Error =
    | NotAnObject
    | UnknownKey(key: string)
    | NotAnArray(key: string)
    | AttributeNotObject
    | Unsupported(id: nat)

  datatype Outcome<+T> = Done(value: T) | Failed(error: Error)

  // ----- response to message tree -----

  /** `SetOneResponseValue`: the message for one value, before it is put into an array or a map. */
  function One(v: Value, ty: Type): Outcome<Message>
    requires HasType(v, ty)
    decreases ty, 0
  {
    match ty
    case TBool => Done(BoolMessage(v.b))
    case TInt(_, _) => Done(IntMessage(ToInt64(v.i)))
    case TFloat => Done(DoubleMessage(v.d))
    case TString => Done(StringMessage(v.s))
    case TMessage(members) =>
      var r := OneMembers(v.fields, members, []);
      if r.Done? then Done(ObjectMessage(r.value)) else Failed(r.error)
    case TUnsupported(id) => Failed(Unsupported(id))
  }

  /** The loop of its branch for messages. */
  function OneMembers(fields: seq<Value>, members: seq<Member>, acc: seq<Entry<Message>>): Outcome<seq<Entry<Message>>>
    requires HaveTypes(fields, members)
    decreases members, 0
  {
    if members == [] then Done(acc)
    else
      var m := members[0];
      assert FieldHasType(fields[0], m);
      var r := if m.isArray || m.ty.TMessage? then FieldTree(fields[0], m) else One(fields[0], m.ty);
      if r.Failed? then Failed(r.error) else OneMembers(fields[1..], members[1..], MapEmplace(acc, m.name, r.value))
  }

  /** `SetResponseFieldValue`: the message for one field. */
  function FieldTree(v: Value, m: Member): Outcome<Message>
    requires FieldHasType(v, m)
    decreases m, 0
  {
    if m.isArray then
      var r := Items(v.items, m.ty, []);
      if r.Done? then Done(ArrayMessage(r.value)) else Failed(r.error)
    else if m.ty.TMessage? then
      assert HasType(v, m.ty);
      var r := NestedMembers(v.fields, m.ty.members, []);
      if r.Done? then Done(ObjectMessage(r.value)) else Failed(r.error)
    else One(v, m.ty)
  }

  function Items(vs: seq<Value>, ty: Type, acc: seq<Message>): Outcome<seq<Message>>
    requires AllHaveType(vs, ty)
    decreases ty, 1, |vs|
  {
    if vs == [] then Done(acc)
    else
      var r := One(vs[0], ty);
      if r.Failed? then Failed(r.error) else Items(vs[1..], ty, acc + [r.value])
  }

  /** The loop of its branch for messages, which differs from the other one. */
  function NestedMembers(fields: seq<Value>, members: seq<Member>,
                         acc: seq<Entry<Message>>): Outcome<seq<Entry<Message>>>
    requires HaveTypes(fields, members)
    decreases members, 0
  {
    if members == [] then Done(acc)
    else
      var m := members[0];
      assert FieldHasType(fields[0], m);
      var r := if m.isArray then FieldTree(fields[0], m) else One(fields[0], m.ty);
      if r.Failed? then Failed(r.error) else NestedMembers(fields[1..], members[1..], MapEmplace(acc, m.name, r.value))
  }

  /** `MapResponseToSocketMessage`. */
  function ResponseEntries(fields: seq<Value>, members: seq<Member>,
                           acc: seq<Entry<Message>>): Outcome<seq<Entry<Message>>>
    requires HaveTypes(fields, members)
    decreases members, 0
  {
    if members == [] then Done(acc)
    else
      assert FieldHasType(fields[0], members[0]);
      var r := FieldTree(fields[0], members[0]);
      if r.Failed? then Failed(r.error)
      else ResponseEntries(fields[1..], members[1..], MapEmplace(acc, members[0].name, r.value))
  }

  // ----- the two builders agree -----

  /** Both ways of building a nested object give the same tree, or the same error. */
  lemma {:induction false} BuildersAgree(v: Value, m: Member)
    requires FieldHasType(v, m) && !m.isArray
    ensures FieldTree(v, m) == One(v, m.ty)
    decreases m
  {
    if m.ty.TMessage? {
      MemberLoopsAgree(v.fields, m.ty.members, []);
    }
  }

  lemma {:induction false} MemberLoopsAgree(fields: seq<Value>, members: seq<Member>, acc: seq<Entry<Message>>)
    requires HaveTypes(fields, members)
    ensures NestedMembers(fields, members, acc) == ResponseEntries(fields, members, acc)
    ensures OneMembers(fields, members, acc) == ResponseEntries(fields, members, acc)
    decreases members
  {
    if members != [] {
      var m := members[0];
      if !m.isArray {
        BuildersAgree(fields[0], m);
      }
      var r := FieldTree(fields[0], m);
      if r.Done? {
        MemberLoopsAgree(fields[1..], members[1..], MapEmplace(acc, m.name, r.value));
      }
    }
  }

  // ----- message tree to request -----

  predicate HasMember(members: seq<Member>, key: string) {
    exists k :: 0 <= k < |members| && members[k].name == key
  }

  /** The first member of the name. */
  function MemberIndex(members: seq<Member>, key: string): (k: nat)
    requires HasMember(members, key)
    ensures k < |members| && members[k].name == key && forall j :: 0 <= j < k ==> members[j].name != key
  {
    if members[0].name == key then 0
    else
      assert HasMember(members[1..], key) by {
        var k :| 0 <= k < |members| && members[k].name == key;
        assert members[1..][k - 1] == members[k];
      }
      MemberIndex(members[1..], key) + 1
  }

  /** `SetRequestFieldValue`: the new value, from the one `old` in place. A tree of another kind gives the
      zero of a primitive type; a nested object is mapped whatever its errors are. */
  function Assigned(ty: Type, old_: Value, v: Message): (Value, Option<Error>)
    decreases v, 0
  {
    match ty
    case TBool => (VBool(v.BoolMessage? && v.b), None)
    case TInt(bits, signed) => (VInt(Cast(bits, signed, if v.IntMessage? then v.i else 0)), None)
    case TFloat => (VFloat(if v.DoubleMessage? then v.d else ZERO), None)
    case TString => (VString(if v.StringMessage? then v.s else ""), None)
    case TMessage(members) =>
      if !v.ObjectMessage? then (old_, Some(AttributeNotObject))
      else if old_.VMessage? && |old_.fields| == |members| then
        (VMessage(MapEntries(v.entries, old_.fields, members).0), None)
      else (old_, None)
    case TUnsupported(id) => (old_, Some(Unsupported(id)))
  }

  /** `resize` keeps the first elements and initialises new ones. */
  function Resized(items: seq<Value>, n: nat, ty: Type): (r: seq<Value>)
    ensures |r| == n
  {
    if n <= |items| then items[..n] else items + seq(n - |items|, _ => Init(ty))
  }

  /** The loop over the elements; every element is built anew and then put in place. */
  function MapItems(arr: seq<Value>, items: seq<Message>, i: nat, ty: Type): (r: (seq<Value>, Option<Error>))
    requires |arr| == i + |items|
    ensures |r.0| == |arr|
    decreases items, 0
  {
    if items == [] then (arr, None)
    else
      var (x, err) := Assigned(ty, Init(ty), items[0]);
      if err.Some? then (arr, err) else MapItems(arr[i := x], items[1..], i + 1, ty)
  }

  function MapField(m: Member, old_: Value, v: Message): (Value, Option<Error>)
    decreases v, 1
  {
    if !m.isArray then Assigned(m.ty, old_, v)
    else if !v.ArrayMessage? then (old_, Some(NotAnArray(m.name)))
    else
      var (arr, err) := MapItems(Resized(if old_.VArray? then old_.items else [], |v.items|, m.ty), v.items, 0, m.ty);
      (VArray(arr), err)
  }

  /** The loop of `MapSocketMessageToRequest`, which ends at the first error. */
  function MapEntries(entries: seq<Entry<Message>>, fields: seq<Value>,
                      members: seq<Member>): (r: (seq<Value>, Option<Error>))
    requires |fields| == |members|
    ensures |r.0| == |members|
    decreases entries, 0
  {
    if entries == [] then (fields, None)
    else if !HasMember(members, entries[0].key) then (fields, Some(UnknownKey(entries[0].key)))
    else
      var k := MemberIndex(members, entries[0].key);
      var (x, err) := MapField(members[k], fields[k], entries[0].value);
      if err.Some? then (fields[k := x], err) else MapEntries(entries[1..], fields[k := x], members)
  }

  function MapRequest(data: Message, fields: seq<Value>, members: seq<Member>): (r: (seq<Value>, Option<Error>))
    requires |fields| == |members|
  {
    if data.NullMessage? then (fields, None)
    else if !data.ObjectMessage? then (fields, Some(NotAnObject))
    else MapEntries(data.entries, fields, members)
  }

  // ----- round trip -----

  /** From any typed value in place, the tree gives back `v`. */
  ghost predicate Restores(m: Member, v: Value, tree: Message) {
    forall old_ :: FieldHasType(old_, m) ==> MapField(m, old_, tree) == (v, None)
  }

  lemma MemberAt(members: seq<Member>, k: nat)
    requires NamesDistinct(members) && k < |members|
    ensures HasMember(members, members[k].name) && MemberIndex(members, members[k].name) == k
  {
  }

  /** Mapping entries that restore the values of distinct members gives these values, and leaves every
      other field as it was. */
  lemma {:induction false} EntriesRestore(entries: seq<Entry<Message>>, fields: seq<Value>, members: seq<Member>,
                                          vs: seq<Value>)
    requires NamesDistinct(members) && HaveTypes(fields, members) && HaveTypes(vs, members)
    requires Sorted(entries)
    requires forall e :: e in entries ==> HasMember(members, e.key)
    requires forall e :: e in entries ==> var k := MemberIndex(members, e.key); Restores(members[k], vs[k], e.value)
    ensures var r := MapEntries(entries, fields, members);
            r.1 == None
            && forall k :: 0 <= k < |members| ==>
               r.0[k] == if HasKey(entries, members[k].name) then vs[k] else fields[k]
    decreases |entries|
  {
    if entries != [] {
      var e, rest := entries[0], entries[1..];
      assert e in entries;
      var k := MemberIndex(members, e.key);
      TypeAt(fields, members, k);
      TypeAt(vs, members, k);
      var (x, err) := MapField(members[k], fields[k], e.value);
      assert x == vs[k] && err == None;
      TypeSet(fields, members, k, vs[k]);
      EntriesRestore(rest, fields[k := vs[k]], members, vs);
      forall j | 0 <= j < |members|
        ensures HasKey(entries, members[j].name) <==> j == k || HasKey(rest, members[j].name)
      {
        KeyOfRest(entries, members[j].name);
      }
    }
  }

  lemma KeyOfRest(entries: seq<Entry<Message>>, key: string)
    requires entries != []
    ensures HasKey(entries, key) <==> entries[0].key == key || HasKey(entries[1..], key)
  {
    if i :| 0 < i < |entries| && entries[i].key == key {
      assert entries[1..][i - 1].key == key;
    }
    if i :| 0 <= i < |entries[1..]| && entries[1..][i].key == key {
      assert entries[i + 1].key == key;
    }
  }

  /** The entries of an object: one for each member, in a map. */
  ghost predicate Covers(entries: seq<Entry<Message>>, members: seq<Member>, vs: seq<Value>)
    requires HaveTypes(vs, members)
  {
    && Sorted(entries)
    && (forall e :: e in entries ==> HasMember(members, e.key))
    && (forall k :: 0 <= k < |members| ==> HasKey(entries, members[k].name))
    && (forall e :: e in entries ==> var k := MemberIndex(members, e.key); Restores(members[k], vs[k], e.value))
  }

  lemma CoveredRestores(entries: seq<Entry<Message>>, fields: seq<Value>, members: seq<Member>, vs: seq<Value>)
    requires NamesDistinct(members) && HaveTypes(fields, members) && HaveTypes(vs, members)
             && Covers(entries, members, vs)
    ensures MapEntries(entries, fields, members) == (vs, None)
  {
    EntriesRestore(entries, fields, members, vs);
    assert MapEntries(entries, fields, members).0 == vs;
  }

  /** The loop over the members, from the i-th on. */
  lemma {:induction false} BuildCovers(vs: seq<Value>, members: seq<Member>, i: nat, acc: seq<Entry<Message>>)
    requires NamesDistinct(members) && HaveTypes(vs, members) && i <= |members| && HaveTypes(vs[i..], members[i..])
    requires forall k :: i <= k < |members| ==> TreeRestores(vs[k], members[k])
    requires CoversFirst(acc, members, vs, i)
    ensures var r := ResponseEntries(vs[i..], members[i..], acc);
            r.Done? && CoversFirst(r.value, members, vs, |members|)
    decreases |members| - i
  {
    if i < |members| {
      var m := members[i];
      TypeAt(vs, members, i);
      assert vs[i..][0] == vs[i] && vs[i..][1..] == vs[i + 1..] && members[i..][0] == m
             && members[i..][1..] == members[i + 1..];
      var tree := FieldTree(vs[i], m).value;
      NextCovers(acc, members, vs, i, tree);
      BuildCovers(vs, members, i + 1, MapEmplace(acc, m.name, tree));
    }
  }

  ghost predicate TreeRestores(v: Value, m: Member) {
    FieldHasType(v, m) && FieldTree(v, m).Done? && Restores(m, v, FieldTree(v, m).value)
  }

  ghost predicate CoversFirst(acc: seq<Entry<Message>>, members: seq<Member>, vs: seq<Value>, i: nat)
    requires i <= |members| == |vs|
  {
    && Sorted(acc)
    && (forall k :: 0 <= k < i ==> HasKey(acc, members[k].name))
    && (forall e :: e in acc ==>
          exists k :: 0 <= k < i && members[k].name == e.key && Restores(members[k], vs[k], e.value))
  }

  lemma NextCovers(acc: seq<Entry<Message>>, members: seq<Member>, vs: seq<Value>, i: nat, tree: Message)
    requires NamesDistinct(members) && i < |members| == |vs| && CoversFirst(acc, members, vs, i)
    requires Restores(members[i], vs[i], tree)
    ensures CoversFirst(MapEmplace(acc, members[i].name, tree), members, vs, i + 1)
  {
    var name := members[i].name;
    forall j | 0 <= j < |acc|
      ensures acc[j].key != name
    {
      assert acc[j] in acc;
    }
    MapSetLookup(acc, name, tree);
    var acc' := MapSet(acc, name, tree);
    assert Entry(name, tree) in acc';
    forall k | 0 <= k < i + 1
      ensures HasKey(acc', members[k].name)
    {
      if k < i {
        var j :| 0 <= j < |acc| && acc[j].key == members[k].name;
        assert acc[j] in acc && acc[j].key != name;
        assert acc[j] in acc';
      }
    }
  }

  lemma CoversAll(entries: seq<Entry<Message>>, members: seq<Member>, vs: seq<Value>)
    requires NamesDistinct(members) && HaveTypes(vs, members) && CoversFirst(entries, members, vs, |members|)
    ensures Covers(entries, members, vs)
  {
    forall e | e in entries
      ensures HasMember(members, e.key)
      ensures var k := MemberIndex(members, e.key); Restores(members[k], vs[k], e.value)
    {
      var k :| 0 <= k < |members| && members[k].name == e.key && Restores(members[k], vs[k], e.value);
      MemberAt(members, k);
    }
  }

  /** What `One` builds, `Assigned` takes back, from any typed value in place. */
  lemma {:induction false} OneRestores(v: Value, ty: Type)
    requires Sound(ty) && HasType(v, ty)
    ensures One(v, ty).Done?
    ensures forall old_ :: HasType(old_, ty) ==> Assigned(ty, old_, One(v, ty).value) == (v, None)
    decreases ty, 0
  {
    match ty
    case TInt(bits, signed) => CastBack(bits, signed, v.i);
    case TMessage(members) =>
      MembersRestore(v.fields, members);
      MemberLoopsAgree(v.fields, members, []);
      var entries := One(v, ty).value.entries;
      forall old_ | HasType(old_, ty)
        ensures Assigned(ty, old_, One(v, ty).value) == (v, None)
      {
        CoveredRestores(entries, old_.fields, members, v.fields);
      }
    case _ =>
  }

  lemma {:induction false} MembersRestore(vs: seq<Value>, members: seq<Member>)
    requires AllSound(members) && HaveTypes(vs, members)
    ensures var r := ResponseEntries(vs, members, []); r.Done? && Covers(r.value, members, vs)
    decreases members, 1
  {
    forall k | 0 <= k < |members|
      ensures TreeRestores(vs[k], members[k])
    {
      TypeAt(vs, members, k);
      FieldRestores(vs[k], members[k]);
    }
    assert vs[0..] == vs && members[0..] == members;
    BuildCovers(vs, members, 0, []);
    CoversAll(ResponseEntries(vs, members, []).value, members, vs);
  }

  lemma {:induction false} FieldRestores(v: Value, m: Member)
    requires Sound(m.ty) && FieldHasType(v, m)
    ensures TreeRestores(v, m)
    decreases m
  {
    if !m.isArray {
      OneRestores(v, m.ty);
      BuildersAgree(v, m);
    } else {
      var trees := ItemsRestore(v.items, m.ty);
      assert [] + trees == trees;
      forall old_ | FieldHasType(old_, m)
        ensures MapField(m, old_, ArrayMessage(trees)) == (v, None)
      {
        var arr := Resized(old_.items, |trees|, m.ty);
        MapItemsRestore(arr, v.items, trees, 0, m.ty);
        assert arr[..0] + v.items == v.items;
      }
    }
  }

  lemma {:induction false} ItemsRestore(vs: seq<Value>, ty: Type) returns (trees: seq<Message>)
    requires Sound(ty) && AllHaveType(vs, ty)
    ensures |trees| == |vs| && forall acc :: Items(vs, ty, acc) == Done(acc + trees)
    ensures forall k :: 0 <= k < |vs| ==> Assigned(ty, Init(ty), trees[k]) == (vs[k], None)
    decreases ty, 1, |vs|
  {
    if vs == [] {
      trees := [];
      assert forall acc: seq<Message> :: acc + [] == acc;
    } else {
      assert HasType(vs[0], ty);
      OneRestores(vs[0], ty);
      InitTyped(ty);
      var rest := ItemsRestore(vs[1..], ty);
      var first := One(vs[0], ty).value;
      trees := [first] + rest;
      forall acc
        ensures Items(vs, ty, acc) == Done(acc + trees)
      {
        assert acc + [first] + rest == acc + trees;
      }
    }
  }

  lemma {:induction false} MapItemsRestore(arr: seq<Value>, vs: seq<Value>, trees: seq<Message>, i: nat, ty: Type)
    requires |vs| == |trees| && |arr| == i + |vs|
    requires forall k :: 0 <= k < |vs| ==> Assigned(ty, Init(ty), trees[k]) == (vs[k], None)
    ensures MapItems(arr, trees, i, ty) == (arr[..i] + vs, None)
    decreases |vs|
  {
    if vs == [] {
      assert arr[..i] + vs == arr;
    } else {
      var arr' := arr[i := vs[0]];
      MapItemsRestore(arr', vs[1..], trees[1..], i + 1, ty);
      assert arr'[..i + 1] + vs[1..] == arr[..i] + vs;
    }
  }

  /** For every type with distinct field names and dynamic arrays, nested to any depth, and every value:
      mapping the value to a message tree succeeds, and mapping the tree into any message of the type gives
      back the value. */
  lemma MarshallingRoundTrip(vs: seq<Value>, members: seq<Member>, fields: seq<Value>)
    requires AllSound(members) && HaveTypes(vs, members) && HaveTypes(fields, members)
    ensures var r := ResponseEntries(vs, members, []);
            r.Done? && MapRequest(ObjectMessage(r.value), fields, members) == (vs, None)
  {
    MembersRestore(vs, members);
    CoveredRestores(ResponseEntries(vs, members, []).value, fields, members, vs);
  }

  // ----- success -----

  predicate TakesOne(ty: Type, v: Message) {
    !ty.TUnsupported? && (ty.TMessage? ==> v.ObjectMessage?)
  }

  predicate Takes(m: Member, v: Message) {
    if m.isArray then v.ArrayMessage? && forall k :: 0 <= k < |v.items| ==> TakesOne(m.ty, v.items[k])
    else TakesOne(m.ty, v)
  }

  lemma {:induction false} ItemsTakeIff(arr: seq<Value>, items: seq<Message>, i: nat, ty: Type)
    requires |arr| == i + |items|
    ensures MapItems(arr, items, i, ty).1 == None <==> forall k :: 0 <= k < |items| ==> TakesOne(ty, items[k])
    decreases |items|
  {
    if items != [] {
      var (x, err) := Assigned(ty, Init(ty), items[0]);
      if err == None {
        ItemsTakeIff(arr[i := x], items[1..], i + 1, ty);
        assert forall k :: 1 <= k < |items| ==> items[k] == items[1..][k - 1];
      }
    }
  }

  lemma TakesIff(m: Member, old_: Value, v: Message)
    ensures MapField(m, old_, v).1 == None <==> Takes(m, v)
  {
    if m.isArray && v.ArrayMessage? {
      ItemsTakeIff(Resized(if old_.VArray? then old_.items else [], |v.items|, m.ty), v.items, 0, m.ty);
    }
  }

  lemma {:induction false} EntriesTakeIff(entries: seq<Entry<Message>>, fields: seq<Value>, members: seq<Member>)
    requires |fields| == |members|
    ensures MapEntries(entries, fields, members).1 == None <==>
            forall i :: 0 <= i < |entries| ==>
              HasMember(members, entries[i].key)
              && Takes(members[MemberIndex(members, entries[i].key)], entries[i].value)
    decreases |entries|
  {
    if entries != [] && HasMember(members, entries[0].key) {
      var k := MemberIndex(members, entries[0].key);
      var (x, err) := MapField(members[k], fields[k], entries[0].value);
      TakesIff(members[k], fields[k], entries[0].value);
      if err == None {
        EntriesTakeIff(entries[1..], fields[k := x], members);
        assert forall i :: 1 <= i < |entries| ==> entries[i] == entries[1..][i - 1];
      }
    }
  }

  /** A request is accepted exactly when it is null, or an object whose every key names a member that takes
      its value: arrays for arrays, objects for messages. What is inside the nested objects does not
      matter: their errors are dropped, with the fields after them. */
  lemma AcceptedIff(data: Message, fields: seq<Value>, members: seq<Member>)
    requires |fields| == |members|
    ensures MapRequest(data, fields, members).1 == None <==>
            data.NullMessage?
            || (data.ObjectMessage?
                && forall i :: 0 <= i < |data.entries| ==>
                     HasMember(members, data.entries[i].key)
                     && Takes(members[MemberIndex(members, data.entries[i].key)], data.entries[i].value))
  {
    if data.ObjectMessage? {
      EntriesTakeIff(data.entries, fields, members);
    }
  }

  // ----- the methods -----

  /** The memory of one ROS message. */
  class RosMessage {
    var fields: seq<Value>

    constructor (fields: seq<Value>)
      ensures this.fields == fields
    {
      this.fields := fields;
    }
  }

  method SetRequestFieldValue(ty: Type, old_: Value, v: Message) returns (x: Value, err: Option<Error>)
    ensures (x, err) == Assigned(ty, old_, v)
    decreases v, 0
  {
    match ty
    case TBool => return VBool(v.BoolMessage? && v.b), None;
    case TInt(bits, signed) => return VInt(Cast(bits, signed, if v.IntMessage? then v.i else 0)), None;
    case TFloat => return VFloat(if v.DoubleMessage? then v.d else ZERO), None;
    case TString => return VString(if v.StringMessage? then v.s else ""), None;
    case TMessage(members) =>
      if !v.ObjectMessage? {
        return old_, Some(AttributeNotObject);
      }
      if !(old_.VMessage? && |old_.fields| == |members|) {
        return old_, None;
      }
      var nested := new RosMessage(old_.fields);
      var _ := MapObject(v.entries, nested, members);
      return VMessage(nested.fields), None;
    case TUnsupported(id) => return old_, Some(Unsupported(id));
  }

  /** The loop of `MapSocketMessageToRequest` over the entries of an object. */
  method MapObject(entries: seq<Entry<Message>>, msg: RosMessage, members: seq<Member>) returns (err: Option<Error>)
    requires |msg.fields| == |members|
    modifies msg
    ensures (msg.fields, err) == MapEntries(entries, old(msg.fields), members)
    decreases entries, 1
  {
    ghost var all := MapEntries(entries, msg.fields, members);
    for i := 0 to |entries|
      invariant |msg.fields| == |members| && all == MapEntries(entries[i..], msg.fields, members)
    {
      var e := entries[i];
      assert entries[i..][0] == e && entries[i..][1..] == entries[i + 1..];
      var k := 0;
      while k < |members| && members[k].name != e.key
        invariant k <= |members| && forall j :: 0 <= j < k ==> members[j].name != e.key
      {
        k := k + 1;
      }
      if k == |members| {
        return Some(UnknownKey(e.key));
      }
      assert HasMember(members, e.key) && MemberIndex(members, e.key) == k;
      var x: Value;
      if members[k].isArray {
        x, err := SetArray(members[k], msg.fields[k], e.value);
      } else {
        x, err := SetRequestFieldValue(members[k].ty, msg.fields[k], e.value);
      }
      msg.fields := msg.fields[k := x];
      if err.Some? {
        return;
      }
    }
    return None;
  }

  /** Its branch for arrays. */
  method SetArray(m: Member, old_: Value, v: Message) returns (x: Value, err: Option<Error>)
    requires m.isArray
    ensures (x, err) == MapField(m, old_, v)
    decreases v, 1
  {
    if !v.ArrayMessage? {
      return old_, Some(NotAnArray(m.name));
    }
    var arr := Resized(if old_.VArray? then old_.items else [], |v.items|, m.ty);
    ghost var all := MapItems(arr, v.items, 0, m.ty);
    for i := 0 to |v.items|
      invariant |arr| == |v.items| && all == MapItems(arr, v.items[i..], i, m.ty)
    {
      assert v.items[i..][0] == v.items[i] && v.items[i..][1..] == v.items[i + 1..];
      var item, failed := SetRequestFieldValue(m.ty, Init(m.ty), v.items[i]);
      if failed.Some? {
        return VArray(arr), failed;
      }
      arr := arr[i := item];
    }
    return VArray(arr), None;
  }

  method MapSocketMessageToRequest(data: Message, msg: RosMessage, members: seq<Member>) returns (err: Option<Error>)
    requires |msg.fields| == |members|
    modifies msg
    ensures (msg.fields, err) == MapRequest(data, old(msg.fields), members)
  {
    if data.NullMessage? {
      return None;
    }
    if !data.ObjectMessage? {
      return Some(NotAnObject);
    }
    err := MapObject(data.entries, msg, members);
  }

  method SetOneResponseValue(v: Value, ty: Type) returns (r: Outcome<Message>)
    requires HasType(v, ty)
    ensures r == One(v, ty)
    decreases ty, 0
  {
    match ty
    case TBool => return Done(BoolMessage(v.b));
    case TInt(_, _) => return Done(IntMessage(ToInt64(v.i)));
    case TFloat => return Done(DoubleMessage(v.d));
    case TString => return Done(StringMessage(v.s));
    case TMessage(members) =>
      TypedLength(v, members);
      var entries: seq<Entry<Message>> := [];
      for i := 0 to |members|
        invariant |v.fields| == |members| && HaveTypes(v.fields[i..], members[i..])
        invariant OneMembers(v.fields, members, []) == OneMembers(v.fields[i..], members[i..], entries)
      {
        var m := members[i];
        assert v.fields[i..][0] == v.fields[i] && v.fields[i..][1..] == v.fields[i + 1..];
        assert members[i..][0] == m && members[i..][1..] == members[i + 1..];
        assert FieldHasType(v.fields[i], m);
        var one: Outcome<Message>;
        if m.isArray || m.ty.TMessage? {
          one := SetResponseFieldValue(v.fields[i], m);
        } else {
          one := SetOneResponseValue(v.fields[i], m.ty);
        }
        if one.Failed? {
          return Failed(one.error);
        }
        entries := MapEmplace(entries, m.name, one.value);
      }
      return Done(ObjectMessage(entries));
    case TUnsupported(id) => return Failed(Unsupported(id));
  }

  method SetResponseFieldValue(v: Value, m: Member) returns (r: Outcome<Message>)
    requires FieldHasType(v, m)
    ensures r == FieldTree(v, m)
    decreases m, 0
  {
    if m.isArray {
      var items: seq<Message> := [];
      for j := 0 to |v.items|
        invariant AllHaveType(v.items[j..], m.ty)
        invariant Items(v.items, m.ty, []) == Items(v.items[j..], m.ty, items)
      {
        assert v.items[j..][0] == v.items[j] && v.items[j..][1..] == v.items[j + 1..];
        assert HasType(v.items[j], m.ty);
        var one := SetOneResponseValue(v.items[j], m.ty);
        if one.Failed? {
          return Failed(one.error);
        }
        items := items + [one.value];
      }
      return Done(ArrayMessage(items));
    } else if m.ty.TMessage? {
      var members := m.ty.members;
      TypedLength(v, members);
      var entries: seq<Entry<Message>> := [];
      for i := 0 to |members|
        invariant |v.fields| == |members| && HaveTypes(v.fields[i..], members[i..])
        invariant NestedMembers(v.fields, members, []) == NestedMembers(v.fields[i..], members[i..], entries)
      {
        var nested := members[i];
        assert v.fields[i..][0] == v.fields[i] && v.fields[i..][1..] == v.fields[i + 1..];
        assert members[i..][0] == nested && members[i..][1..] == members[i + 1..];
        assert FieldHasType(v.fields[i], nested);
        var one: Outcome<Message>;
        if nested.isArray {
          one := SetResponseFieldValue(v.fields[i], nested);
        } else {
          one := SetOneResponseValue(v.fields[i], nested.ty);
        }
        if one.Failed? {
          return Failed(one.error);
        }
        entries := MapEmplace(entries, nested.name, one.value);
      }
      return Done(ObjectMessage(entries));
    } else {
      r := SetOneResponseValue(v, m.ty);
    }
  }

  /** `MapResponseToSocketMessage`, into an empty object. */
  method MapResponseToSocketMessage(fields: seq<Value>, members: seq<Member>) returns (r: Outcome<Message>)
    requires HaveTypes(fields, members)
    ensures var entries := ResponseEntries(fields, members, []);
            r == if entries.Done? then Done(ObjectMessage(entries.value)) else Failed(entries.error)
  {
    var entries: seq<Entry<Message>> := [];
    for i := 0 to |members|
      invariant |fields| == |members| && HaveTypes(fields[i..], members[i..])
      invariant ResponseEntries(fields, members, []) == ResponseEntries(fields[i..], members[i..], entries)
    {
      assert fields[i..][0] == fields[i] && fields[i..][1..] == fields[i + 1..];
      assert members[i..][0] == members[i] && members[i..][1..] == members[i + 1..];
      assert FieldHasType(fields[i], members[i]);
      var one := SetResponseFieldValue(fields[i], members[i]);
      if one.Failed? {
        return Failed(one.error);
      }
      entries := MapEmplace(entries, members[i].name, one.value);
    }
    return Done(ObjectMessage(entries));
  }
}
