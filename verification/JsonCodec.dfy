/** A writer and a parser of JSON trees that meet what is asked of RapidJSON, so that the results about
    packet streams are about something. Numbers and lengths are written in unary. */
module JsonCodec {
  import opened SioMessage
  import opened SioPacket

  // ----- numbers -----

  function Unary(n: nat): string {
    if n == 0 then "0" else "1" + Unary(n - 1)
  }

  /** The number at the start of `s`, and what follows it. */
  function ReadUnary(s: string): (r: (nat, string))
    ensures |r.1| <= |s|
  {
    if s == [] then (0, [])
    else if s[0] == '0' then (0, s[1..])
    else
      var (n, rest) := ReadUnary(s[1..]);
      (n + 1, rest)
  }

  lemma {:induction false} UnaryRead(n: nat, rest: string)
    ensures ReadUnary(Unary(n) + rest) == (n, rest)
  {
    var s := Unary(n) + rest;
    if n == 0 {
      assert s[1..] == rest;
    } else {
      UnaryRead(n - 1, rest);
      assert s[1..] == Unary(n - 1) + rest;
    }
  }

  function Natural(i: int): nat {
    if i >= 0 then 2 * i else -2 * i - 1
  }

  function Integer(n: nat): int {
    if n % 2 == 0 then n / 2 else -(n / 2) - 1
  }

  lemma IntegerBack(i: int)
    ensures Integer(Natural(i)) == i
  {
  }

  function Number(i: int): string {
    Unary(Natural(i))
  }

  function ReadNumber(s: string): (r: (int, string))
    ensures |r.1| <= |s|
  {
    var (n, rest) := ReadUnary(s);
    (Integer(n), rest)
  }

  lemma NumberRead(i: int, rest: string)
    ensures ReadNumber(Number(i) + rest) == (i, rest)
  {
    UnaryRead(Natural(i), rest);
    IntegerBack(i);
  }

  // ----- strings -----

  function Text(s: string): string {
    Unary(|s|) + s
  }

  function ReadText(s: string): (r: (string, string))
    ensures |r.1| <= |s|
  {
    var (n, rest) := ReadUnary(s);
    if n <= |rest| then (rest[..n], rest[n..]) else ([], [])
  }

  lemma TextRead(t: string, rest: string)
    ensures ReadText(Text(t) + rest) == (t, rest)
  {
    assert Text(t) + rest == Unary(|t|) + (t + rest);
    UnaryRead(|t|, t + rest);
    assert (t + rest)[..|t|] == t && (t + rest)[|t|..] == rest;
  }

  // ----- trees -----

  function Write(v: Json): (r: string)
    ensures r != []
    decreases v, 0
  {
    match v
    case JNull => "n"
    case JBool(b) => if b then "t" else "f"
    case JInt(i) => "i" + Number(i)
    case JDouble(d) => "d" + Number(d.mantissa) + Number(d.exponent)
    case JString(s) => "\"" + Text(s)
    case JArray(items) => "[" + Unary(|items|) + WriteAll(items)
    case JObject(members) => "{" + Unary(|members|) + WriteMembers(members)
  }

  function WriteAll(items: seq<Json>): string
    decreases items, 0
  {
    if items == [] then "" else Write(items[0]) + WriteAll(items[1..])
  }

  function WriteMembers(members: seq<Entry<Json>>): string
    decreases members, 0
  {
    if members == [] then "" else Text(members[0].key) + Write(members[0].value) + WriteMembers(members[1..])
  }

  /** The tree at the start of `s`, and what follows it; anything for a text that `Write` did not make. */
  function Read(s: string): (r: (Json, string))
    ensures |r.1| <= |s| && (s != [] ==> |r.1| < |s|)
    decreases |s|, 0
  {
    if s == [] then (JNull, [])
    else
      var c, rest := s[0], s[1..];
      if c == 't' then (JBool(true), rest)
      else if c == 'f' then (JBool(false), rest)
      else if c == 'i' then
        var (i, after) := ReadNumber(rest);
        (JInt(i), after)
      else if c == 'd' then
        var (m, after) := ReadNumber(rest);
        var (e, end) := ReadNumber(after);
        (if IsDouble(Dyadic(m, e)) then JDouble(Dyadic(m, e)) else JNull, end)
      else if c == '"' then
        var (t, after) := ReadText(rest);
        (JString(t), after)
      else if c == '[' then
        var (n, after) := ReadUnary(rest);
        var (items, end) := ReadAll(n, after);
        (JArray(items), end)
      else if c == '{' then
        var (n, after) := ReadUnary(rest);
        var (members, end) := ReadMembers(n, after);
        (JObject(members), end)
      else (JNull, rest)
  }

  function ReadAll(n: nat, s: string): (r: (seq<Json>, string))
    ensures |r.1| <= |s|
    decreases |s|, 1, n
  {
    if n == 0 then ([], s)
    else
      var (v, rest) := Read(s);
      var (vs, end) := ReadAll(n - 1, rest);
      ([v] + vs, end)
  }

  function ReadMembers(n: nat, s: string): (r: (seq<Entry<Json>>, string))
    ensures |r.1| <= |s|
    decreases |s|, 1, n
  {
    if n == 0 then ([], s)
    else
      var (key, after) := ReadText(s);
      var (v, rest) := Read(after);
      var (vs, end) := ReadMembers(n - 1, rest);
      ([Entry(key, v)] + vs, end)
  }

  lemma LeafBack(v: Json, rest: string)
    requires v.JNull? || v.JBool?
    ensures Read(Write(v) + rest) == (v, rest)
  {
    assert (Write(v) + rest)[1..] == rest;
  }

  lemma IntBack(i: int, rest: string)
    ensures Read(Write(JInt(i)) + rest) == (JInt(i), rest)
  {
    assert (Write(JInt(i)) + rest)[1..] == Number(i) + rest;
    NumberRead(i, rest);
  }

  lemma DoubleBack(d: Double, rest: string)
    ensures Read(Write(JDouble(d)) + rest) == (JDouble(d), rest)
  {
    var e := Number(d.exponent) + rest;
    assert (Write(JDouble(d)) + rest)[1..] == Number(d.mantissa) + e;
    NumberRead(d.mantissa, e);
    NumberRead(d.exponent, rest);
  }

  lemma StringBack(t: string, rest: string)
    ensures Read(Write(JString(t)) + rest) == (JString(t), rest)
  {
    assert (Write(JString(t)) + rest)[1..] == Text(t) + rest;
    TextRead(t, rest);
  }

  /** What was written is read back, and nothing more. */
  lemma {:induction false} ReadBack(v: Json, rest: string)
    ensures Read(Write(v) + rest) == (v, rest)
    decreases v, 1
  {
    match v
    case JNull => LeafBack(v, rest);
    case JBool(b) => LeafBack(v, rest);
    case JInt(i) => IntBack(i, rest);
    case JDouble(d) => DoubleBack(d, rest);
    case JString(t) => StringBack(t, rest);
    case JArray(items) => ArrayBack(items, rest);
    case JObject(members) => ObjectBack(members, rest);
  }

  lemma {:induction false} ArrayBack(items: seq<Json>, rest: string)
    ensures Read(Write(JArray(items)) + rest) == (JArray(items), rest)
    decreases items, 1
  {
    assert (Write(JArray(items)) + rest)[1..] == Unary(|items|) + (WriteAll(items) + rest);
    UnaryRead(|items|, WriteAll(items) + rest);
    ReadAllBack(items, rest);
  }

  lemma {:induction false} ObjectBack(members: seq<Entry<Json>>, rest: string)
    ensures Read(Write(JObject(members)) + rest) == (JObject(members), rest)
    decreases members, 1
  {
    assert (Write(JObject(members)) + rest)[1..] == Unary(|members|) + (WriteMembers(members) + rest);
    UnaryRead(|members|, WriteMembers(members) + rest);
    ReadMembersBack(members, rest);
  }

  lemma {:induction false} ReadAllBack(items: seq<Json>, rest: string)
    ensures ReadAll(|items|, WriteAll(items) + rest) == (items, rest)
    decreases items, 0
  {
    if items == [] {
      assert WriteAll(items) + rest == rest;
    } else {
      var after := WriteAll(items[1..]) + rest;
      assert WriteAll(items) + rest == Write(items[0]) + after;
      ReadBack(items[0], after);
      ReadAllBack(items[1..], rest);
      assert [items[0]] + items[1..] == items;
    }
  }

  lemma {:induction false} ReadMembersBack(members: seq<Entry<Json>>, rest: string)
    ensures ReadMembers(|members|, WriteMembers(members) + rest) == (members, rest)
    decreases members, 0
  {
    if members == [] {
      assert WriteMembers(members) + rest == rest;
    } else {
      var after := WriteMembers(members[1..]) + rest;
      assert WriteMembers(members) + rest == Text(members[0].key) + (Write(members[0].value) + after);
      TextRead(members[0].key, Write(members[0].value) + after);
      ReadBack(members[0].value, after);
      ReadMembersBack(members[1..], rest);
      assert [Entry(members[0].key, members[0].value)] + members[1..] == members;
    }
  }

  function Parse(s: string): Json {
    Read(s).0
  }

  const CODEC := JsonText(Write, Parse)

  /** The assumptions about RapidJSON can be met. */
  lemma CodecIsLawful()
    ensures Lawful(CODEC)
  {
    forall v: Json
      ensures Parse(Write(v)) == v
    {
      ReadBack(v, []);
      assert Write(v) + [] == Write(v);
    }
  }
}
