/** What an accepted service request applies, and what it drops without an error
    (src/generic_services.cpp). */
module Applied {
  import opened Arithmetic
  import opened SioMessage
  import opened RosTypes
  import opened Marshalling
  import opened Options

  // ----- one object -----

  /** Every object of the tree is a `std::map`. */
  ghost predicate MapsOnly(v: Message)
    decreases v
  {
    match v
    case ArrayMessage(items) => forall k :: 0 <= k < |items| ==> MapsOnly(items[k])
    case ObjectMessage(entries) => Sorted(entries) && forall k :: 0 <= k < |entries| ==> MapsOnly(entries[k].value)
    case _ => true
  }

  /** The entry names a member that takes its value, whatever is inside nested objects. */
  predicate Accepts(members: seq<Member>, e: Entry<Message>) {
    HasMember(members, e.key) && Takes(members[MemberIndex(members, e.key)], e.value)
  }

  ghost predicate StoppedBefore(entries: seq<Entry<Message>>, members: seq<Member>, i: nat)
    requires i <= |entries|
  {
    exists j :: 0 <= j < i && !Accepts(members, entries[j])
  }

  /** A member that no entry names keeps its value. */
  lemma {:induction false} UnnamedKept(entries: seq<Entry<Message>>, fields: seq<Value>, members: seq<Member>, k: nat)
    requires |fields| == |members| && k < |members|
    requires forall i :: 0 <= i < |entries| ==> entries[i].key != members[k].name
    ensures MapEntries(entries, fields, members).0[k] == fields[k]
    decreases |entries|
  {
    if entries != [] && HasMember(members, entries[0].key) {
      var j := MemberIndex(members, entries[0].key);
      var (x, err) := MapField(members[j], fields[j], entries[0].value);
      if err == None {
        UnnamedKept(entries[1..], fields[j := x], members, k);
      }
    }
  }

  /** In one object, an entry is mapped unless one before it failed; then its member keeps its value. */
  lemma {:induction false} EntryApplied(entries: seq<Entry<Message>>, fields: seq<Value>, members: seq<Member>, i: nat)
    requires |fields| == |members| && Sorted(entries) && i < |entries| && HasMember(members, entries[i].key)
    ensures var k := MemberIndex(members, entries[i].key);
            MapEntries(entries, fields, members).0[k] ==
            if StoppedBefore(entries, members, i) then fields[k]
              else MapField(members[k], fields[k], entries[i].value).0
    decreases |entries|
  {
    var e, k := entries[0], MemberIndex(members, entries[i].key);
    forall j | 0 < j < |entries|
      ensures entries[j].key != e.key
    {
      KeyLessTotal(e.key, entries[j].key);
    }
    if !HasMember(members, e.key) {
      assert i > 0 && !Accepts(members, entries[0]);
      return;
    }
    var k0 := MemberIndex(members, e.key);
    var (x, err) := MapField(members[k0], fields[k0], e.value);
    TakesIff(members[k0], fields[k0], e.value);
    if err != None {
      assert !Accepts(members, entries[0]);
      return;
    }
    if i == 0 {
      UnnamedKept(entries[1..], fields[k0 := x], members, k);
    } else {
      EntryApplied(entries[1..], fields[k0 := x], members, i - 1);
      StoppedInRest(entries, members, i);
    }
  }

  lemma StoppedInRest(entries: seq<Entry<Message>>, members: seq<Member>, i: nat)
    requires 0 < i < |entries| && Accepts(members, entries[0])
    ensures StoppedBefore(entries[1..], members, i - 1) <==> StoppedBefore(entries, members, i)
  {
    if j :| 0 <= j < i && !Accepts(members, entries[j]) {
      assert entries[1..][j - 1] == entries[j];
    }
    if j :| 0 <= j < i - 1 && !Accepts(members, entries[1..][j]) {
      assert entries[j + 1] == entries[1..][j];
    }
  }

  /** In an array whose elements are all taken, each is mapped into a new element. */
  lemma {:induction false} ItemApplied(arr: seq<Value>, items: seq<Message>, i: nat, ty: Type, k: nat)
    requires |arr| == i + |items| && k < |items| && forall j :: 0 <= j < |items| ==> TakesOne(ty, items[j])
    ensures MapItems(arr, items, i, ty).0[i + k] == Assigned(ty, Init(ty), items[k]).0
    decreases |items|
  {
    var (x, err) := Assigned(ty, Init(ty), items[0]);
    if k == 0 {
      EarlierKept(arr[i := x], items[1..], i + 1, ty, i);
    } else {
      ItemApplied(arr[i := x], items[1..], i + 1, ty, k - 1);
    }
  }

  lemma {:induction false} EarlierKept(arr: seq<Value>, items: seq<Message>, i: nat, ty: Type, k: nat)
    requires |arr| == i + |items| && k < i
    ensures MapItems(arr, items, i, ty).0[k] == arr[k]
    decreases |items|
  {
    if items != [] {
      var (x, err) := Assigned(ty, Init(ty), items[0]);
      if err == None {
        EarlierKept(arr[i := x], items[1..], i + 1, ty, k);
      }
    }
  }

  // ----- all depths -----

  /** The types of C++: integers of its widths, and initial values of the members' types. */
  ghost predicate Regular(ty: Type)
    decreases ty, 0
  {
    match ty
    case TInt(bits, _) => bits == 8 || bits == 16 || bits == 32 || bits == 64
    case TMessage(members) => AllRegular(members)
    case _ => true
  }

  ghost predicate AllRegular(members: seq<Member>)
    decreases members, 1
  {
    HaveTypes(Inits(members), members) && forall m :: m in members ==> Regular(m.ty)
  }

  /** The value is the very one of the tree; in a message, for every member that the tree names, and the
      tree names nothing else. */
  ghost predicate Shows(ty: Type, v: Message, x: Value)
    decreases v, 0
  {
    match ty
    case TBool => v.BoolMessage? && x == VBool(v.b)
    case TInt(_, _) => v.IntMessage? && x == VInt(v.i)
    case TFloat => v.DoubleMessage? && x == VFloat(v.d)
    case TString => v.StringMessage? && x == VString(v.s)
    case TMessage(members) => v.ObjectMessage? && x.VMessage? && EntriesShow(members, v.entries, x.fields)
    case TUnsupported(_) => false
  }

  ghost predicate FieldShows(m: Member, v: Message, x: Value)
    decreases v, 1
  {
    if m.isArray then
      v.ArrayMessage? && x.VArray? && |x.items| == |v.items|
      && forall k :: 0 <= k < |v.items| ==> Shows(m.ty, v.items[k], x.items[k])
    else Shows(m.ty, v, x)
  }

  ghost predicate EntriesShow(members: seq<Member>, entries: seq<Entry<Message>>, fields: seq<Value>)
    decreases entries, 0
  {
    |fields| == |members|
    && forall i :: 0 <= i < |entries| ==>
         HasMember(members, entries[i].key)
         && FieldShows(members[MemberIndex(members, entries[i].key)], entries[i].value,
                       fields[MemberIndex(members, entries[i].key)])
  }

  /** The tree suits the type at every depth: trees of its kinds, integers in range, and no other key. */
  ghost predicate DeepTakesOne(ty: Type, v: Message)
    decreases v, 0
  {
    match ty
    case TBool => v.BoolMessage?
    case TInt(bits, signed) => v.IntMessage? && InRange(bits, signed, v.i)
    case TFloat => v.DoubleMessage?
    case TString => v.StringMessage?
    case TMessage(members) => v.ObjectMessage? && DeepTakesAll(members, v.entries)
    case TUnsupported(_) => false
  }

  ghost predicate DeepTakes(m: Member, v: Message)
    decreases v, 1
  {
    if m.isArray then v.ArrayMessage? && forall k :: 0 <= k < |v.items| ==> DeepTakesOne(m.ty, v.items[k])
    else DeepTakesOne(m.ty, v)
  }

  ghost predicate DeepTakesAll(members: seq<Member>, entries: seq<Entry<Message>>)
    decreases entries, 0
  {
    forall i :: 0 <= i < |entries| ==>
      HasMember(members, entries[i].key)
      && DeepTakes(members[MemberIndex(members, entries[i].key)], entries[i].value)
  }

  lemma RegularInit(ty: Type)
    requires Regular(ty)
    ensures HasType(Init(ty), ty)
  {
    match ty
    case TInt(bits, signed) => assert Pow2(bits) > 0;
    case _ =>
  }

  /** A cast keeps an integer exactly when it is in range. */
  lemma CastExactIff(bits: nat, signed: bool, i: int)
    requires bits == 8 || bits == 16 || bits == 32 || bits == 64
    ensures Cast(bits, signed, i) == i <==> InRange(bits, signed, i)
  {
    Halves(bits);
    WrappedExactIff(signed, i, Pow2(bits), Pow2(bits - 1));
  }

  lemma Halves(bits: nat)
    requires bits > 0
    ensures Pow2(bits) == 2 * Pow2(bits - 1)
  {
  }

  lemma WrappedExactIff(signed: bool, i: int, n: nat, half: nat)
    requires n == 2 * half && half > 0
    ensures (if signed && i % n >= half then i % n - n else i % n) == i <==>
            if signed then 0 - half <= i < half else 0 <= i < n
  {
    if 0 <= i < n {
      ModUnique(i, 0, i, n);
    } else if 0 - n <= i < 0 {
      ModUnique(i, -1, i + n, n);
    }
  }

  /** What is not taken at the top cannot be shown, and is not taken deeply. */
  lemma RefusedIsNotShown(m: Member, v: Message, x: Value)
    requires !Takes(m, v)
    ensures !FieldShows(m, v, x) && !DeepTakes(m, v)
  {
  }

  /** The value after the assignment is the tree's exactly when the tree suits the type at every depth. */
  lemma {:induction false} AssignedIff(ty: Type, old_: Value, v: Message)
    requires Regular(ty) && HasType(old_, ty) && MapsOnly(v)
    ensures Shows(ty, v, Assigned(ty, old_, v).0) <==> DeepTakesOne(ty, v)
    decreases v, 0
  {
    match ty
    case TInt(bits, signed) => if v.IntMessage? { CastExactIff(bits, signed, v.i); }
    case TMessage(members) => if v.ObjectMessage? { EntriesIff(v.entries, old_.fields, members); }
    case _ =>
  }

  lemma {:induction false} FieldIff(m: Member, old_: Value, v: Message)
    requires Regular(m.ty) && FieldHasType(old_, m) && MapsOnly(v)
    ensures FieldShows(m, v, MapField(m, old_, v).0) <==> DeepTakes(m, v)
    decreases v, 1
  {
    if !Takes(m, v) {
      RefusedIsNotShown(m, v, MapField(m, old_, v).0);
    } else if !m.isArray {
      AssignedIff(m.ty, old_, v);
    } else {
      var arr := Resized(old_.items, |v.items|, m.ty);
      forall k | 0 <= k < |v.items|
        ensures Shows(m.ty, v.items[k], MapItems(arr, v.items, 0, m.ty).0[k]) <==> DeepTakesOne(m.ty, v.items[k])
      {
        ItemApplied(arr, v.items, 0, m.ty, k);
        RegularInit(m.ty);
        AssignedIff(m.ty, Init(m.ty), v.items[k]);
      }
    }
  }

  lemma {:induction false} EntriesIff(entries: seq<Entry<Message>>, fields: seq<Value>, members: seq<Member>)
    requires AllRegular(members) && HaveTypes(fields, members) && Sorted(entries)
    requires forall i :: 0 <= i < |entries| ==> MapsOnly(entries[i].value)
    ensures EntriesShow(members, entries, MapEntries(entries, fields, members).0) <==> DeepTakesAll(members, entries)
    decreases entries, 0
  {
    var r := MapEntries(entries, fields, members).0;
    if j :| 0 <= j < |entries| && !Accepts(members, entries[j]) {
      if HasMember(members, entries[j].key) {
        var k := MemberIndex(members, entries[j].key);
        RefusedIsNotShown(members[k], entries[j].value, r[k]);
      }
      return;
    }
    forall i | 0 <= i < |entries|
      ensures var k := MemberIndex(members, entries[i].key);
              FieldShows(members[k], entries[i].value, r[k]) <==> DeepTakes(members[k], entries[i].value)
    {
      var k := MemberIndex(members, entries[i].key);
      assert Accepts(members, entries[i]);
      EntryApplied(entries, fields, members, i);
      TypeAt(fields, members, k);
      assert members[k] in members;
      FieldIff(members[k], fields[k], entries[i].value);
    }
  }

  lemma {:induction false} DeepTakesIsTaken(members: seq<Member>, entries: seq<Entry<Message>>)
    requires DeepTakesAll(members, entries)
    ensures forall i :: 0 <= i < |entries| ==> Accepts(members, entries[i])
  {
    forall i | 0 <= i < |entries|
      ensures Accepts(members, entries[i])
    {
      var m := members[MemberIndex(members, entries[i].key)];
      if !Takes(m, entries[i].value) {
        RefusedIsNotShown(m, entries[i].value, VOpaque);
      }
    }
  }

  /** After a request every member that the tree names, at any depth, holds the very value of the tree, if and
      only if the tree suits the types at every depth; then the request is accepted. */
  lemma AppliedIff(data: Message, fields: seq<Value>, members: seq<Member>)
    requires AllRegular(members) && HaveTypes(fields, members) && data.ObjectMessage? && MapsOnly(data)
    ensures EntriesShow(members, data.entries, MapRequest(data, fields, members).0) <==>
            DeepTakesAll(members, data.entries)
    ensures DeepTakesAll(members, data.entries) ==> MapRequest(data, fields, members).1 == None
  {
    EntriesIff(data.entries, fields, members);
    if DeepTakesAll(members, data.entries) {
      DeepTakesIsTaken(members, data.entries);
      AcceptedIff(data, fields, members);
    }
  }

  /** The request {p: {bad: 1, x: 5}} for a message p with one field x is accepted, and x keeps its value. */
  lemma AcceptedAndDropped(was: int)
    ensures var point := [Member("x", TInt(32, true), false, VInt(0))];
            var members := [Member("p", TMessage(point), false, VMessage([VInt(0)]))];
            var nested := ObjectMessage([Entry("bad", IntMessage(1)), Entry("x", IntMessage(5))]);
            var fields := [VMessage([VInt(was)])];
            MapRequest(ObjectMessage([Entry("p", nested)]), fields, members) == (fields, None)
  {
    var point := [Member("x", TInt(32, true), false, VInt(0))];
    var members := [Member("p", TMessage(point), false, VMessage([VInt(0)]))];
    var entries := [Entry("bad", IntMessage(1)), Entry("x", IntMessage(5))];
    assert point[0].name == "x" && members[0].name == "p";
    assert "x" != "bad" by {
      assert |"x"| != |"bad"|;
    }
    assert !HasMember(point, "bad");
    assert MapEntries(entries, [VInt(was)], point) == ([VInt(was)], Some(UnknownKey("bad")));
    var all, fields := [Entry("p", ObjectMessage(entries))], [VMessage([VInt(was)])];
    assert HasMember(members, all[0].key) && MemberIndex(members, "p") == 0;
    assert MapField(members[0], fields[0], all[0].value) == (fields[0], None);
    assert all[1..] == [] && fields[0 := fields[0]] == fields;
  }
}
