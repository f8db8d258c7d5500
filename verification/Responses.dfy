/** What the caller of a service is sent: a tree that tells every field of the response, at every depth; and
    what becomes of values of a request that do not fit (src/generic_services.cpp). */
module Responses {
  import opened Arithmetic
  import opened SioMessage
  import opened RosTypes
  import opened Marshalling
  import opened Applied
  import opened Options

  // ----- responses -----

  /** The tree tells the value: integers as the 64-bit signed integers that hold them, so that an unsigned one
      from 2^63 on is told as a negative number; an object has one entry for each member and no other. */
  ghost predicate Tells(v: Value, ty: Type, tree: Message)
    decreases ty, 0
  {
    match ty
    case TBool => v.VBool? && tree == BoolMessage(v.b)
    case TInt(_, _) =>
      v.VInt?
      && tree == IntMessage(if v.i < 0x8000_0000_0000_0000 then v.i else v.i - 0x1_0000_0000_0000_0000)
    case TFloat => v.VFloat? && tree == DoubleMessage(v.d)
    case TString => v.VString? && tree == StringMessage(v.s)
    case TMessage(members) => v.VMessage? && tree.ObjectMessage? && ObjectTells(v.fields, members, tree.entries)
    case TUnsupported(_) => false
  }

  ghost predicate FieldTells(v: Value, m: Member, tree: Message)
    decreases m, 0
  {
    if m.isArray then
      v.VArray? && tree.ArrayMessage? && |tree.items| == |v.items|
      && forall k :: 0 <= k < |v.items| ==> Tells(v.items[k], m.ty, tree.items[k])
    else Tells(v, m.ty, tree)
  }

  ghost predicate ObjectTells(fields: seq<Value>, members: seq<Member>, entries: seq<Entry<Message>>)
    decreases members, 0
  {
    && |fields| == |members| && Sorted(entries)
    && (forall k :: 0 <= k < |members| ==>
          exists e :: e in entries && e.key == members[k].name && FieldTells(fields[k], members[k], e.value))
    && (forall e :: e in entries ==> exists k :: 0 <= k < |members| && members[k].name == e.key)
  }

  lemma Told64(bits: nat, signed: bool, i: int)
    requires (bits == 8 || bits == 16 || bits == 32 || bits == 64) && InRange(bits, signed, i)
    ensures ToInt64(i) == if i < 0x8000_0000_0000_0000 then i else i - 0x1_0000_0000_0000_0000
  {
    Powers();
    if bits != 64 {
      CastKeeps(bits, signed, i);
    }
    if IsInt64(i) {
      ToInt64Keeps(i);
    } else {
      assert i % Pow2(64) == i;
    }
  }

  lemma IntTells(v: Value, bits: nat, signed: bool)
    requires Sound(TInt(bits, signed)) && HasType(v, TInt(bits, signed))
    ensures Tells(v, TInt(bits, signed), IntMessage(ToInt64(v.i)))
  {
    Told64(bits, signed, v.i);
  }

  lemma {:induction false} OneTells(v: Value, ty: Type)
    requires Sound(ty) && HasType(v, ty)
    ensures One(v, ty).Done? && Tells(v, ty, One(v, ty).value)
    decreases ty, 0
  {
    match ty
    case TInt(bits, signed) => IntTells(v, bits, signed);
    case TMessage(members) =>
      BuildTells(v.fields, members, []);
      LoopTells(v, members);
    case _ =>
  }

  lemma LoopTells(v: Value, members: seq<Member>)
    requires HasType(v, TMessage(members)) && ResponseEntries(v.fields, members, []).Done?
    requires ObjectTells(v.fields, members, ResponseEntries(v.fields, members, []).value)
    ensures One(v, TMessage(members)).Done? && Tells(v, TMessage(members), One(v, TMessage(members)).value)
  {
    MemberLoopsAgree(v.fields, members, []);
  }

  lemma {:induction false} ItemsTell(vs: seq<Value>, ty: Type, acc: seq<Message>)
    requires Sound(ty) && AllHaveType(vs, ty)
    ensures var r := Items(vs, ty, acc);
            && r.Done? && |r.value| == |acc| + |vs| && r.value[..|acc|] == acc
            && forall k :: 0 <= k < |vs| ==> Tells(vs[k], ty, r.value[|acc| + k])
    decreases ty, 1, |vs|
  {
    if vs != [] {
      assert HasType(vs[0], ty);
      OneTells(vs[0], ty);
      var acc' := acc + [One(vs[0], ty).value];
      ItemsTell(vs[1..], ty, acc');
      var r := Items(vs, ty, acc).value;
      assert r[..|acc'|] == acc';
      assert r[..|acc|] == acc'[..|acc|] == acc && r[|acc|] == acc'[|acc|];
      forall k | 1 <= k < |vs|
        ensures Tells(vs[k], ty, r[|acc| + k])
      {
        assert vs[k] == vs[1..][k - 1];
      }
    }
  }

  lemma {:induction false} FieldTreeTells(v: Value, m: Member)
    requires Sound(m.ty) && FieldHasType(v, m)
    ensures FieldTree(v, m).Done? && FieldTells(v, m, FieldTree(v, m).value)
    decreases m
  {
    if m.isArray {
      ItemsTell(v.items, m.ty, []);
    } else {
      OneTells(v, m.ty);
      BuildersAgree(v, m);
    }
  }

  /** The loop over the members: one entry more for each, and the entries there were. */
  lemma {:induction false} BuildTells(vs: seq<Value>, members: seq<Member>, acc: seq<Entry<Message>>)
    requires HaveTypes(vs, members) && NamesDistinct(members) && Sorted(acc)
    requires forall m :: m in members ==> Sound(m.ty) && !HasKey(acc, m.name)
    ensures var r := ResponseEntries(vs, members, acc);
            r.Done? && Sorted(r.value) && Built(vs, members, acc, r.value)
    ensures acc == [] ==> ObjectTells(vs, members, ResponseEntries(vs, members, acc).value)
    decreases members
  {
    if members != [] {
      var m := members[0];
      FieldTreeTells(vs[0], m);
      var tree := FieldTree(vs[0], m).value;
      var acc' := MapEmplace(acc, m.name, tree);
      MapSetLookup(acc, m.name, tree);
      forall n | n in members[1..]
        ensures !HasKey(acc', n.name)
      {
        NotYet(acc, acc', members, n, tree);
      }
      BuildTells(vs[1..], members[1..], acc');
      BuiltNext(vs, members, acc, acc', ResponseEntries(vs, members, acc).value, tree);
    }
  }

  ghost predicate Built(vs: seq<Value>, members: seq<Member>, acc: seq<Entry<Message>>, r: seq<Entry<Message>>) {
    && |vs| == |members|
    && (forall e :: e in acc ==> e in r)
    && (forall k :: 0 <= k < |members| ==>
          exists e :: e in r && e.key == members[k].name && FieldTells(vs[k], members[k], e.value))
    && (forall e :: e in r ==> e in acc || exists k :: 0 <= k < |members| && members[k].name == e.key)
  }

  lemma NotYet(acc: seq<Entry<Message>>, acc': seq<Entry<Message>>, members: seq<Member>, n: Member, tree: Message)
    requires NamesDistinct(members) && members != [] && n in members[1..] && !HasKey(acc, n.name)
    requires forall e :: e in acc' ==> e == Entry(members[0].name, tree) || e in acc
    ensures !HasKey(acc', n.name)
  {
    var j :| 0 <= j < |members[1..]| && members[1..][j] == n;
    assert members[j + 1].name == n.name && members[0].name != members[j + 1].name;
    forall i | 0 <= i < |acc'|
      ensures acc'[i].key != n.name
    {
      assert acc'[i] in acc';
      if acc'[i] in acc {
        var l :| 0 <= l < |acc| && acc[l] == acc'[i];
      }
    }
  }

  lemma BuiltNext(vs: seq<Value>, members: seq<Member>, acc: seq<Entry<Message>>, acc': seq<Entry<Message>>,
                  r: seq<Entry<Message>>, tree: Message)
    requires members != [] && |vs| == |members| && !HasKey(acc, members[0].name)
    requires forall e :: e in acc' <==> e == Entry(members[0].name, tree) || (e in acc && e.key != members[0].name)
    requires FieldTells(vs[0], members[0], tree) && Built(vs[1..], members[1..], acc', r)
    ensures Built(vs, members, acc, r)
  {
    forall e | e in acc
      ensures e in r
    {
      var i :| 0 <= i < |acc| && acc[i] == e;
      assert e in acc';
    }
    assert Entry(members[0].name, tree) in acc';
    forall k | 0 <= k < |members|
      ensures exists e :: e in r && e.key == members[k].name && FieldTells(vs[k], members[k], e.value)
    {
      if k > 0 {
        assert vs[k] == vs[1..][k - 1] && members[k] == members[1..][k - 1];
      }
    }
    forall e | e in r && e !in acc
      ensures exists k :: 0 <= k < |members| && members[k].name == e.key
    {
      if e !in acc' {
        var k :| 0 <= k < |members[1..]| && members[1..][k].name == e.key;
        assert members[k + 1].name == e.key;
      }
    }
  }

  /** The caller is sent what the service answered: for every type and value, nested to any depth, the tree
      has one entry for every member, which tells the very value of the field. */
  lemma ResponseTells(vs: seq<Value>, members: seq<Member>)
    requires AllSound(members) && HaveTypes(vs, members)
    ensures var r := ResponseEntries(vs, members, []); r.Done? && ObjectTells(vs, members, r.value)
  {
    BuildTells(vs, members, []);
  }

  // ----- requests: values that do not fit -----

  /** An integer that is out of range is taken modulo the width of the field, into its range. */
  lemma CastWraps(bits: nat, signed: bool, i: int)
    requires bits == 8 || bits == 16 || bits == 32 || bits == 64
    ensures InRange(bits, signed, Cast(bits, signed, i))
    ensures (Cast(bits, signed, i) - i) % Pow2(bits) == 0
  {
    Halves(bits);
    assert Pow2(bits - 1) > 0;
    WrapsBy(signed, i, Pow2(bits), Pow2(bits - 1));
  }

  lemma WrapsBy(signed: bool, i: int, n: nat, half: nat)
    requires n == 2 * half && half > 0
    ensures var c := if signed && i % n >= half then i % n - n else i % n;
            && (if signed then 0 - half <= c < half else 0 <= c < n)
            && (c - i) % n == 0
  {
    var m, q := i % n, i / n;
    assert i == n * q + m;
    assert n * (0 - q) == 0 - n * q && n * (0 - q - 1) == 0 - n * q - n;
    ModUnique(m - i, 0 - q, 0, n);
    ModUnique(m - n - i, 0 - q - 1, 0, n);
  }

  /** An entry that is mapped to a primitive field of another kind leaves the zero of the field. */
  lemma OtherKindGivesZero(entries: seq<Entry<Message>>, fields: seq<Value>, members: seq<Member>, i: nat)
    requires |fields| == |members| && Sorted(entries) && i < |entries| && HasMember(members, entries[i].key)
    requires !StoppedBefore(entries, members, i) && !members[MemberIndex(members, entries[i].key)].isArray
    ensures var k := MemberIndex(members, entries[i].key);
            var (tree, x) := (entries[i].value, MapEntries(entries, fields, members).0[k]);
            match members[k].ty
            case TBool => !tree.BoolMessage? ==> x == VBool(false)
            case TInt(_, _) => !tree.IntMessage? ==> x == VInt(0)
            case TFloat => !tree.DoubleMessage? ==> x == VFloat(Dyadic(0, 0))
            case TString => !tree.StringMessage? ==> x == VString("")
            case _ => true
  {
    var k := MemberIndex(members, entries[i].key);
    EntryApplied(entries, fields, members, i);
    if members[k].ty.TInt? {
      ZeroCast(members[k].ty.bits, members[k].ty.signed);
    }
  }

  lemma ZeroCast(bits: nat, signed: bool)
    ensures Cast(bits, signed, 0) == 0
  {
    assert Pow2(bits) > 0;
    if bits > 0 {
      assert Pow2(bits - 1) > 0;
    }
  }

  /** The error told for a request is that of the first entry that is not taken: an unknown key, something
      else than an array for an array, something else than an object for a message, an unsupported type. */
  lemma {:induction false} FirstErrorTold(entries: seq<Entry<Message>>, fields: seq<Value>, members: seq<Member>,
                                          i: nat)
    requires |fields| == |members| && i < |entries| && !Accepts(members, entries[i])
    requires forall j :: 0 <= j < i ==> Accepts(members, entries[j])
    ensures var (e, err) := (entries[i], MapEntries(entries, fields, members).1);
            if forall k :: 0 <= k < |members| ==> members[k].name != e.key then err == Some(UnknownKey(e.key))
            else
              var m := members[MemberIndex(members, e.key)];
              if m.isArray && !e.value.ArrayMessage? then err == Some(NotAnArray(e.key))
              else if m.ty.TUnsupported? then err == Some(Unsupported(m.ty.id))
              else err == Some(AttributeNotObject)
    decreases i
  {
    var e := entries[0];
    if !HasMember(members, e.key) {
      assert i == 0;
      return;
    }
    var k := MemberIndex(members, e.key);
    var (x, err) := MapField(members[k], fields[k], e.value);
    TakesIff(members[k], fields[k], e.value);
    if i > 0 {
      assert Accepts(members, entries[0]);
      FirstErrorTold(entries[1..], fields[k := x], members, i - 1);
    } else if members[k].isArray && e.value.ArrayMessage? {
      var old_ := fields[k];
      ItemsError(Resized(if old_.VArray? then old_.items else [], |e.value.items|, members[k].ty), e.value.items, 0,
        members[k].ty);
    }
  }

  /** A request that is null is accepted, one that is anything else but an object is refused; neither changes a
      field. */
  lemma NoObjectChangesNothing(data: Message, fields: seq<Value>, members: seq<Member>)
    requires |fields| == |members| && !data.ObjectMessage?
    ensures MapRequest(data, fields, members) == (fields, if data == NullMessage then None else Some(NotAnObject))
  {
  }

  lemma {:induction false} ItemsError(arr: seq<Value>, items: seq<Message>, i: nat, ty: Type)
    requires |arr| == i + |items| && exists k :: 0 <= k < |items| && !TakesOne(ty, items[k])
    ensures MapItems(arr, items, i, ty).1 ==
            if ty.TUnsupported? then Some(Unsupported(ty.id)) else Some(AttributeNotObject)
    decreases |items|
  {
    var (x, err) := Assigned(ty, Init(ty), items[0]);
    if err == None {
      var k :| 0 <= k < |items| && !TakesOne(ty, items[k]);
      assert items[1..][k - 1] == items[k];
      ItemsError(arr[i := x], items[1..], i + 1, ty);
    }
  }
}
