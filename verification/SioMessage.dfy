/** Message trees of the Socket.IO client (sioclient/sio_message.h) and the JSON trees they are
    written to. A `std::map<string, message::ptr>` is its list of entries in iteration order, that
    is, sorted by key; a byte string is a Dafny string. */
module SioMessage {

  datatype Entry<+V> = Entry(key: string, value: V)

  /** A finite IEEE double, mantissa * 2^exponent with an odd mantissa or 0; nothing is computed with it. */
  datatype Dyadic = Dyadic(mantissa: int, exponent: int)

  function Pow2(n: nat): (r: nat)
    ensures r > 0
  {
    if n == 0 then 1 else 2 * Pow2(n - 1)
  }

  predicate IsDouble(d: Dyadic) {
    d == Dyadic(0, 0)
    || (d.mantissa % 2 != 0 && -1074 <= d.exponent <= 1023
        && var bound: int := Pow2(if d.exponent <= 971 then 53 else 1024 - d.exponent); -bound < d.mantissa < bound)
  }

  type Double = d: Dyadic | IsDouble(d) witness Dyadic(0, 0)

  const ZERO: Double := Dyadic(0, 0)

  /** `NoMessage` is the null `message::ptr`. */
  datatype Message =
    | NoMessage
    | NullMessage
    | BoolMessage(b: bool)
    | IntMessage(i: int)
    | DoubleMessage(d: Double)
    | StringMessage(s: string)
    | BinaryMessage(bytes: string)
    | ArrayMessage(items: seq<Message>)
    | ObjectMessage(entries: seq<Entry<Message>>)

  datatype Json =
    | JNull
    | JBool(b: bool)
    | JInt(i: int)
    | JDouble(d: Double)
    | JString(s: string)
    | JArray(items: seq<Json>)
    | JObject(members: seq<Entry<Json>>)

  predicate IsInt64(i: int) {
    -0x8000_0000_0000_0000 <= i < 0x8000_0000_0000_0000
  }

  /** The value `static_cast<int>` keeps of an unsigned size. */
  function ToInt32(n: nat): int {
    var m := n % 0x1_0000_0000;
    if m < 0x8000_0000 then m else m - 0x1_0000_0000
  }

  /** A tree as RapidJSON writes it for a message: integers have 64 bits. */
  predicate Writable(v: Json) {
    match v
    case JInt(i) => IsInt64(i)
    case JArray(items) => forall k :: 0 <= k < |items| ==> Writable(items[k])
    case JObject(members) => forall k :: 0 <= k < |members| ==> Writable(members[k].value)
    case _ => true
  }

  // ----- std::map -----

  /** `std::less<string>` on bytes. */
  predicate KeyLess(a: string, b: string) {
    b != [] && (a == [] || a[0] < b[0] || (a[0] == b[0] && KeyLess(a[1..], b[1..])))
  }

  lemma {:induction false} KeyLessTotal(a: string, b: string)
    ensures a == b || KeyLess(a, b) || KeyLess(b, a)
    ensures !(KeyLess(a, b) && KeyLess(b, a))
    ensures !KeyLess(a, a)
  {
    if a != [] && b != [] {
      KeyLessTotal(a[1..], b[1..]);
      KeyLessTotal(a[1..], a[1..]);
      assert a == [a[0]] + a[1..] && b == [b[0]] + b[1..];
    } else if a != [] {
      KeyLessTotal(a[1..], a[1..]);
    }
  }

  lemma {:induction false} KeyLessTransitive(a: string, b: string, c: string)
    requires KeyLess(a, b) && KeyLess(b, c)
    ensures KeyLess(a, c)
  {
    if a != [] && a[0] == b[0] && b[0] == c[0] {
      KeyLessTransitive(a[1..], b[1..], c[1..]);
    }
  }

  ghost predicate Sorted<V>(es: seq<Entry<V>>) {
    forall i, j :: 0 <= i < j < |es| ==> KeyLess(es[i].key, es[j].key)
  }

  predicate HasKey<V>(es: seq<Entry<V>>, key: string) {
    exists i :: 0 <= i < |es| && es[i].key == key
  }

  /** `find`: the value at the first entry with the key. */
  function Find<V>(es: seq<Entry<V>>, key: string): (r: V)
    requires HasKey(es, key)
    ensures exists i :: 0 <= i < |es| && es[i].key == key && es[i].value == r
  {
    if es[0].key == key then es[0].value
    else
      assert forall i :: 0 < i < |es| ==> es[i] == es[1..][i - 1];
      Find(es[1..], key)
  }

  /** `map[key] = value`. */
  function MapSet<V>(es: seq<Entry<V>>, key: string, value: V): seq<Entry<V>> {
    if es == [] || KeyLess(key, es[0].key) then [Entry(key, value)] + es
    else if es[0].key == key then [Entry(key, value)] + es[1..]
    else [es[0]] + MapSet(es[1..], key, value)
  }

  /** `map.emplace(key, value)`: an entry already there is kept. */
  function MapEmplace<V>(es: seq<Entry<V>>, key: string, value: V): seq<Entry<V>> {
    if HasKey(es, key) then es else MapSet(es, key, value)
  }

  /** Setting a key above all others appends it. */
  lemma {:induction false} MapSetAppends<V>(es: seq<Entry<V>>, key: string, value: V)
    requires forall i :: 0 <= i < |es| ==> KeyLess(es[i].key, key)
    ensures MapSet(es, key, value) == es + [Entry(key, value)]
  {
    if es != [] {
      KeyLessTotal(es[0].key, key);
      MapSetAppends(es[1..], key, value);
    }
  }

  /** A map stays sorted when a key is set; the key then has the value and no other key changes. */
  lemma {:induction false} MapSetLookup<V>(es: seq<Entry<V>>, key: string, value: V)
    requires Sorted(es)
    ensures Sorted(MapSet(es, key, value))
    ensures forall e :: e in MapSet(es, key, value) ==> e == Entry(key, value) || (e in es && e.key != key)
    ensures forall e :: e == Entry(key, value) || (e in es && e.key != key) ==> e in MapSet(es, key, value)
  {
    var r := MapSet(es, key, value);
    if es == [] {
      assert r == [Entry(key, value)];
    } else if KeyLess(key, es[0].key) {
      forall i | 0 <= i < |es| ensures KeyLess(key, es[i].key) && es[i].key != key {
        if i > 0 { KeyLessTransitive(key, es[0].key, es[i].key); }
        KeyLessTotal(key, es[i].key);
      }
      assert r == [Entry(key, value)] + es;
      assert forall e :: e in es ==> exists i :: 0 <= i < |es| && es[i] == e;
    } else if es[0].key == key {
      forall i | 1 <= i < |es| ensures es[i].key != key {
        KeyLessTotal(key, es[i].key);
      }
      assert r == [Entry(key, value)] + es[1..];
      assert es == [es[0]] + es[1..];
    } else {
      KeyLessTotal(es[0].key, key);
      assert es == [es[0]] + es[1..];
      assert Sorted(es[1..]);
      MapSetLookup(es[1..], key, value);
      var t := MapSet(es[1..], key, value);
      forall j | 0 <= j < |t| ensures KeyLess(es[0].key, t[j].key) {
        var e := t[j];
        assert e in t;
        assert e == Entry(key, value) || e in es[1..];
        if t[j] != Entry(key, value) {
          var i :| 0 <= i < |es[1..]| && es[1..][i] == t[j];
          assert t[j] == es[i + 1];
        }
      }
      assert r == [es[0]] + t;
    }
  }
}
