/** ROS messages as the introspection type support describes them (src/generic_services.cpp): descriptors
    and the values that live in a message's memory. */
module RosTypes {
  import opened SioMessage

  /** BYTE and UINT8, CHAR and INT8 are the same. A type that the bridge does not handle has an opaque
      value. */
  datatype Type =
    | TBool
    | TInt(bits: nat, signed: bool)
    | TFloat
    | TString
    | TMessage(members: seq<Member>)
    | TUnsupported(id: nat)

  /** `init` is what `init_function` leaves in the field. */
  datatype Member = Member(name: string, ty: Type, isArray: bool, init: Value)

  datatype Value =
    | VBool(b: bool)
    | VInt(i: int)
    | VFloat(d: Double)
    | VString(s: string)
    | VMessage(fields: seq<Value>)
    | VArray(items: seq<Value>)
    | VOpaque

  predicate InRange(bits: nat, signed: bool, i: int) {
    if signed then bits > 0 && 0 - Pow2(bits - 1) <= i < Pow2(bits - 1) else 0 <= i < Pow2(bits)
  }

  predicate HasType(v: Value, ty: Type)
    decreases ty, 0
  {
    match ty
    case TBool => v.VBool?
    case TInt(bits, signed) => v.VInt? && InRange(bits, signed, v.i)
    case TFloat => v.VFloat?
    case TString => v.VString?
    case TMessage(members) => v.VMessage? && HaveTypes(v.fields, members)
    case TUnsupported(_) => v.VOpaque?
  }

  predicate AllHaveType(vs: seq<Value>, ty: Type)
    decreases ty, 1
  {
    forall k :: 0 <= k < |vs| ==> HasType(vs[k], ty)
  }

  predicate FieldHasType(v: Value, m: Member)
    decreases m
  {
    if m.isArray then v.VArray? && AllHaveType(v.items, m.ty) else HasType(v, m.ty)
  }

  predicate HaveTypes(fields: seq<Value>, members: seq<Member>)
    decreases members
  {
    |fields| == |members|
    && (members == [] || (FieldHasType(fields[0], members[0]) && HaveTypes(fields[1..], members[1..])))
  }

  lemma TypedLength(v: Value, members: seq<Member>)
    requires HasType(v, TMessage(members))
    ensures v.VMessage? && |v.fields| == |members| && HaveTypes(v.fields, members)
  {
  }

  lemma {:induction false} TypeAt(fields: seq<Value>, members: seq<Member>, k: nat)
    requires HaveTypes(fields, members) && k < |members|
    ensures FieldHasType(fields[k], members[k])
    decreases k
  {
    if k > 0 {
      TypeAt(fields[1..], members[1..], k - 1);
    }
  }

  lemma {:induction false} TypeSet(fields: seq<Value>, members: seq<Member>, k: nat, v: Value)
    requires HaveTypes(fields, members) && k < |members| && FieldHasType(v, members[k])
    ensures HaveTypes(fields[k := v], members)
    decreases k
  {
    if k > 0 {
      TypeSet(fields[1..], members[1..], k - 1, v);
      assert fields[k := v][1..] == fields[1..][k - 1 := v];
    } else {
      assert fields[k := v][1..] == fields[1..];
    }
  }

  /** The value a freshly initialised element has. */
  function Init(ty: Type): Value {
    match ty
    case TBool => VBool(false)
    case TInt(_, _) => VInt(0)
    case TFloat => VFloat(ZERO)
    case TString => VString("")
    case TMessage(members) => VMessage(Inits(members))
    case TUnsupported(_) => VOpaque
  }

  function Inits(members: seq<Member>): (r: seq<Value>)
    ensures |r| == |members|
  {
    if members == [] then [] else [members[0].init] + Inits(members[1..])
  }

  ghost predicate NamesDistinct(members: seq<Member>) {
    forall i, j :: 0 <= i < j < |members| ==> members[i].name != members[j].name
  }

  /** Supported at every depth, with C++ integer widths, distinct field names and typed initial values. */
  ghost predicate Sound(ty: Type)
    decreases ty, 0
  {
    match ty
    case TInt(bits, _) => bits == 8 || bits == 16 || bits == 32 || bits == 64
    case TMessage(members) => AllSound(members)
    case TUnsupported(_) => false
    case _ => true
  }

  ghost predicate AllSound(members: seq<Member>)
    decreases members, 1
  {
    NamesDistinct(members) && HaveTypes(Inits(members), members) && forall m :: m in members ==> Sound(m.ty)
  }

  lemma InitTyped(ty: Type)
    requires Sound(ty)
    ensures HasType(Init(ty), ty)
  {
    match ty
    case TInt(bits, signed) => assert Pow2(bits) > 0;
    case _ =>
  }

  // ----- C++ casts -----

  /** `static_cast` to an integer of the given width. */
  function Cast(bits: nat, signed: bool, i: int): int {
    var m := i % Pow2(bits);
    if signed && bits > 0 && m >= Pow2(bits - 1) then m - Pow2(bits) else m
  }

  function ToInt64(i: int): int {
    Cast(64, true, i)
  }

  lemma Powers()
    ensures Pow2(7) == 0x80 && Pow2(8) == 0x100 && Pow2(15) == 0x8000 && Pow2(16) == 0x1_0000
    ensures Pow2(31) == 0x8000_0000 && Pow2(32) == 0x1_0000_0000
    ensures Pow2(63) == 0x8000_0000_0000_0000 && Pow2(64) == 0x1_0000_0000_0000_0000
  {
    assert Pow2(4) == 16;
    assert Pow2(8) == 256;
    assert Pow2(12) == 4096;
    assert Pow2(16) == 65536;
    assert Pow2(20) == 0x10_0000;
    assert Pow2(24) == 0x100_0000;
    assert Pow2(28) == 0x1000_0000;
    assert Pow2(32) == 0x1_0000_0000;
    assert Pow2(36) == 0x10_0000_0000;
    assert Pow2(40) == 0x100_0000_0000;
    assert Pow2(44) == 0x1000_0000_0000;
    assert Pow2(48) == 0x1_0000_0000_0000;
    assert Pow2(52) == 0x10_0000_0000_0000;
    assert Pow2(56) == 0x100_0000_0000_0000;
    assert Pow2(60) == 0x1000_0000_0000_0000;
  }

  lemma ToInt64Keeps(i: int)
    requires IsInt64(i)
    ensures ToInt64(i) == i
  {
    Powers();
  }

  lemma Modulo(i: int)
    ensures 0 <= i < 0x100 ==> i % 0x100 == i
    ensures -0x100 <= i < 0 ==> i % 0x100 == i + 0x100
    ensures 0 <= i < 0x1_0000 ==> i % 0x1_0000 == i
    ensures -0x1_0000 <= i < 0 ==> i % 0x1_0000 == i + 0x1_0000
    ensures 0 <= i < 0x1_0000_0000 ==> i % 0x1_0000_0000 == i
    ensures -0x1_0000_0000 <= i < 0 ==> i % 0x1_0000_0000 == i + 0x1_0000_0000
  {
  }

  lemma CastKeeps(bits: nat, signed: bool, i: int)
    requires (bits == 8 || bits == 16 || bits == 32) && InRange(bits, signed, i)
    ensures Cast(bits, signed, i) == i && IsInt64(i)
  {
    Powers();
    Modulo(i);
    if bits == 8 {
      assert Pow2(bits) == 0x100 && Pow2(bits - 1) == 0x80;
      return;
    }
    if bits == 16 {
      assert Pow2(bits) == 0x1_0000 && Pow2(bits - 1) == 0x8000;
      return;
    }
    assert Pow2(bits) == 0x1_0000_0000 && Pow2(bits - 1) == 0x8000_0000;
  }

  /** An integer of any width survives the way through a message's 64-bit signed integer. */
  lemma CastBack(bits: nat, signed: bool, i: int)
    requires (bits == 8 || bits == 16 || bits == 32 || bits == 64) && InRange(bits, signed, i)
    ensures Cast(bits, signed, ToInt64(i)) == i && IsInt64(ToInt64(i))
  {
    if bits == 64 {
      CastBack64(signed, i);
    } else {
      CastKeeps(bits, signed, i);
      ToInt64Keeps(i);
    }
  }

  lemma CastBack64(signed: bool, i: int)
    requires InRange(64, signed, i)
    ensures Cast(64, signed, ToInt64(i)) == i && IsInt64(ToInt64(i))
  {
    Powers();
    var w := ToInt64(i);
    if i < Pow2(63) {
      ToInt64Keeps(i);
    } else {
      assert w == i - Pow2(64);
      assert w % Pow2(64) == i;
    }
  }
}
