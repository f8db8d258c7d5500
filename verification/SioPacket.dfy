/** The Socket.IO packet encoding and the stream reassembler (sioclient/internal/sio_packet.cpp). */
module SioPacket {
  import opened Options
  import opened SioMessage
  import opened Placeholders

  const FRAME_MESSAGE := 4
  const TYPE_CONNECT := 0
  const TYPE_DISCONNECT := 1
  const TYPE_EVENT := 2
  const TYPE_ACK := 3
  const TYPE_ERROR := 4
  const TYPE_BINARY_EVENT := 5
  const TYPE_BINARY_ACK := 6
  const TYPE_UNDETERMINED := 0x10

  /** The fields of a `packet`; `kind` is `_type`, `pending` is `_pending_buffers`. */
  datatype PacketState = PacketState(
    frame: int, kind: int, nsp: string, packId: int, message: Message, pending: nat, buffers: seq<string>)

  /** A packet made by the default constructor, whose `_frame` is set by `parse`. */
  const BLANK := PacketState(0, TYPE_UNDETERMINED, "", -1, NoMessage, 0, [])

  /** RapidJSON's writer and parser. */
  datatype JsonText = JsonText(write: Json -> string, parse: string -> Json)

  /** All that is used of RapidJSON: the parser reads back what the writer wrote, and the text of an
      array, an object or a string starts with its bracket or quote. */
  ghost predicate Lawful(t: JsonText) {
    && (forall v: Json :: Writable(v) ==> t.parse(t.write(v)) == v)
    && (forall v: Json :: Writable(v) && v.JArray? ==> t.write(v) != [] && t.write(v)[0] == '[')
    && (forall v: Json :: Writable(v) && v.JObject? ==> t.write(v) != [] && t.write(v)[0] == '{')
    && (forall v: Json :: Writable(v) && v.JString? ==> t.write(v) != [] && t.write(v)[0] == '"')
  }

  // ----- std::string and number parsing -----

  const NPOS := -1
  const BODY_STARTS: set<char> := {'{', '[', '"', '/'}
  const JSON_STARTS: set<char> := {'"', '[', '{'}
  const COMMA: set<char> := {','}
  const DASH: set<char> := {'-'}

  function FindFirstOf(s: string, chars: set<char>, from: nat): (r: int)
    ensures r == NPOS || (from <= r < |s| && s[r] in chars)
    decreases |s| - from
  {
    if from >= |s| then NPOS else if s[from] in chars then from else FindFirstOf(s, chars, from + 1)
  }

  /** `s[i]` of a std::string, whose terminator can be read too. */
  function CharAt(s: string, i: nat): char {
    if i < |s| then s[i] else '\0'
  }

  predicate IsDigit(c: char) {
    '0' <= c <= '9'
  }

  function DigitValue(c: char): nat
    requires IsDigit(c)
  {
    (c - '0') as nat
  }

  function Dec(n: nat): (s: string)
    ensures s != [] && forall k :: 0 <= k < |s| ==> IsDigit(s[k])
  {
    if n < 10 then ['0' + n as char] else Dec(n / 10) + ['0' + (n % 10) as char]
  }

  predicate IsSpace(c: char) {
    c == ' ' || '\t' <= c <= '\r'
  }

  function SkipSpace(s: string): string {
    if s != [] && IsSpace(s[0]) then SkipSpace(s[1..]) else s
  }

  function LeadingDigits(s: string, acc: nat): nat {
    if s != [] && IsDigit(s[0]) then LeadingDigits(s[1..], acc * 10 + DigitValue(s[0])) else acc
  }

  /** The number that `strtol` and `strtoul` read before they check its range. */
  function ReadInteger(s: string): Option<int> {
    var t := SkipSpace(s);
    var u := if t != [] && (t[0] == '+' || t[0] == '-') then t[1..] else t;
    if u == [] || !IsDigit(u[0]) then None
    else if t[0] == '-' then Some(0 - LeadingDigits(u, 0)) else Some(LeadingDigits(u, 0))
  }

  /** `static_cast<unsigned>(std::stoul(s))`; `None` is an exception. */
  function Stoul(s: string): Option<nat> {
    match ReadInteger(s)
    case None => None
    case Some(v) =>
      if v > 0xFFFF_FFFF_FFFF_FFFF || v < -0xFFFF_FFFF_FFFF_FFFF then None else Some(v % 0x1_0000_0000)
  }

  /** `std::stoi`; `None` is an exception. */
  function Stoi(s: string): Option<int> {
    match ReadInteger(s)
    case None => None
    case Some(v) => if -0x8000_0000 <= v < 0x8000_0000 then Some(v) else None
  }

  // ----- packet::parse, parse_buffer, accept -----

  predicate IsBinaryMessage(payload: string) {
    |payload| > 0 && payload[0] == FRAME_MESSAGE as char
  }

  predicate IsTextMessage(payload: string) {
    |payload| > 0 && payload[0] == '0' + FRAME_MESSAGE as char
  }

  predicate IsBinaryKind(kind: int) {
    kind == TYPE_BINARY_EVENT || kind == TYPE_BINARY_ACK
  }

  /** The outcome of `parse`: an exception, or the packet and whether attachments must follow. */
  datatype Parsed = Thrown | Parsed(packet: PacketState, needsBuffers: bool)

  function Parse(t: JsonText, old_: PacketState, s: string): Parsed {
    var p := PacketState(CharAt(s, 0) as int - '0' as int, old_.kind, old_.nsp, -1, NoMessage, 0, []);
    if p.frame != FRAME_MESSAGE then ParseBody(t, p, s, 1)
    else
      var q := p.(kind := CharAt(s, 1) as int - '0' as int);
      if q.kind < 0 || q.kind > 6 then Parsed(q, false)
      else if IsBinaryKind(q.kind) then
        var score := FindFirstOf(s, DASH, 0);
        match Stoul(if score == NPOS then s[2..] else s[2..score])
        case None => Thrown
        case Some(n) => ParseBody(t, q.(pending := n), s, score + 1)
      else ParseBody(t, q, s, 2)
  }

  /** From the search for the namespace on. */
  function ParseBody(t: JsonText, p: PacketState, s: string, pos: nat): Parsed {
    var start := FindFirstOf(s, BODY_STARTS, pos);
    if start == NPOS then Parsed(p.(nsp := "/"), false)
    else if s[start] != '/' then ParseTail(t, p.(nsp := "/"), s, pos, start)
    else
      var comma := FindFirstOf(s, COMMA, 0);
      if comma == NPOS then Parsed(p.(nsp := s[start..]), false)
      else
        var q := p.(nsp := if comma < start then s[start..] else s[start..comma]);
        var json := FindFirstOf(s, JSON_STARTS, comma + 1);
        if json == NPOS then Parsed(q, false) else ParseTail(t, q, s, comma + 1, json)
  }

  /** From the optional id on. */
  function ParseTail(t: JsonText, p: PacketState, s: string, pos: nat, json: nat): Parsed
    requires json < |s|
  {
    var id := if pos < json then Stoi(s[pos..json]) else Some(-1);
    if id.None? then Thrown
    else
      var q := p.(packId := id.value);
      if q.frame == FRAME_MESSAGE && IsBinaryKind(q.kind) then Parsed(q.(buffers := [s[json..]]), true)
      else Parsed(q.(message := FromJson(t.parse(s[json..]), [])), false)
  }

  /** `parse_buffer`: the packet after the attachment, and whether more must follow. */
  function ParseBuffer(t: JsonText, p: PacketState, payload: string): (PacketState, bool) {
    if p.pending == 0 then (p, false)
    else
      var buffers := p.buffers + [payload];
      if p.pending > 1 then (p.(buffers := buffers, pending := p.pending - 1), true)
      else (p.(message := FromJson(t.parse(buffers[0]), buffers[1..]), buffers := [], pending := 0), false)
  }

  /** `_type & ~type_undetermined` */
  function Determined(kind: nat): nat {
    if (kind / TYPE_UNDETERMINED) % 2 == 1 then kind - TYPE_UNDETERMINED else kind
  }

  function WireKind(kind: nat, hasBinary: bool): nat {
    var k := Determined(kind);
    if hasBinary && k == TYPE_EVENT then TYPE_BINARY_EVENT
    else if hasBinary && k == TYPE_ACK then TYPE_BINARY_ACK
    else k
  }

  function NamespaceText(nsp: string, more: bool): string {
    if nsp == "" || nsp == "/" then "" else if more then nsp + "," else nsp
  }

  function CountText(count: nat): string {
    if count > 0 then Dec(count) + "-" else ""
  }

  function IdText(packId: int): string {
    if packId >= 0 then Dec(packId) else ""
  }

  /** What `accept` streams between the frame character and the JSON text. */
  function Header(p: PacketState, count: nat): string
    requires p.kind >= 0
  {
    Dec(WireKind(p.kind, count > 0)) + CountText(count)
    + NamespaceText(p.nsp, p.message != NoMessage || p.packId >= 0) + IdText(p.packId)
  }

  /** The text that `accept` writes, given the root JSON and the number of attachments. */
  function Text(t: JsonText, p: PacketState, doc: Json, count: nat): string
    requires p.kind >= 0
  {
    "4" + Header(p, count) + (if p.message != NoMessage then t.write(doc) else "")
  }

  /** The payloads that `encode` hands to its callback, in order. */
  function Frames(t: JsonText, p: PacketState): seq<string>
    requires 0 <= p.frame <= 6 && p.kind >= 0
  {
    if p.frame != FRAME_MESSAGE then [['0' + p.frame as char]]
    else
      var (doc, buffers) := if p.message != NoMessage then Accepted(p.message, []) else (JNull, []);
      [Text(t, p, doc, |buffers|)] + buffers
  }

  class Packet {
    var frame: int
    var kind: int
    var nsp: string
    var packId: int
    var message: Message
    var pending: nat
    var buffers: seq<string>

    function State(): PacketState
      reads this
    {
      PacketState(frame, kind, nsp, packId, message, pending, buffers)
    }

    constructor FromState(s: PacketState)
      ensures State() == s
    {
      frame, kind, nsp, packId := s.frame, s.kind, s.nsp, s.packId;
      message, pending, buffers := s.message, s.pending, s.buffers;
    }

    method ParsePayload(t: JsonText, s: string) returns (r: Parsed)
      requires !IsBinaryMessage(s)
      modifies this
      ensures r == Parse(t, old(State()), s)
      ensures r.Parsed? ==> State() == r.packet
    {
      frame := CharAt(s, 0) as int - '0' as int;
      message, packId, buffers, pending := NoMessage, -1, [], 0;
      var pos := 1;
      if frame == FRAME_MESSAGE {
        kind := CharAt(s, pos) as int - '0' as int;
        if kind < 0 || kind > 6 {
          return Parsed.Parsed(State(), false);
        }
        pos := pos + 1;
        if IsBinaryKind(kind) {
          var score := FindFirstOf(s, DASH, 0);
          match Stoul(if score == NPOS then s[pos..] else s[pos..score])
          case None => return Thrown;
          case Some(n) => pending := n;
          pos := score + 1;
        }
      }
      r := ParseFromNamespace(t, s, pos);
    }

    method ParseFromNamespace(t: JsonText, s: string, pos: nat) returns (r: Parsed)
      modifies this`nsp, this`packId, this`buffers, this`message
      requires packId == -1 && message == NoMessage && buffers == []
      ensures r == ParseBody(t, old(State()), s, pos)
      ensures r.Parsed? ==> State() == r.packet
    {
      var nspJson := FindFirstOf(s, BODY_STARTS, pos);
      if nspJson == NPOS {
        nsp := "/";
        return Parsed.Parsed(State(), false);
      }
      if s[nspJson] == '/' {
        var comma := FindFirstOf(s, COMMA, 0);
        if comma == NPOS {
          nsp := s[nspJson..];
          return Parsed.Parsed(State(), false);
        }
        nsp := if comma < nspJson then s[nspJson..] else s[nspJson..comma];
        var json := FindFirstOf(s, JSON_STARTS, comma + 1);
        if json == NPOS {
          return Parsed.Parsed(State(), false);
        }
        r := ParseFromId(t, s, comma + 1, json);
      } else {
        nsp := "/";
        r := ParseFromId(t, s, pos, nspJson);
      }
    }

    method ParseFromId(t: JsonText, s: string, pos: nat, json: nat) returns (r: Parsed)
      requires json < |s| && packId == -1 && message == NoMessage && buffers == []
      modifies this`packId, this`buffers, this`message
      ensures r == ParseTail(t, old(State()), s, pos, json)
      ensures r.Parsed? ==> State() == r.packet
    {
      if pos < json {
        match Stoi(s[pos..json])
        case None => return Thrown;
        case Some(n) => packId := n;
      }
      if frame == FRAME_MESSAGE && IsBinaryKind(kind) {
        buffers := buffers + [s[json..]];
        r := Parsed.Parsed(State(), true);
      } else {
        message := FromJson(t.parse(s[json..]), []);
        r := Parsed.Parsed(State(), false);
      }
    }

    method ParseAttachment(t: JsonText, payload: string) returns (more: bool)
      requires IsBinaryMessage(payload)
      modifies this
      ensures (State(), more) == ParseBuffer(t, old(State()), payload)
    {
      if pending > 0 {
        buffers := buffers + [payload];
        pending := pending - 1;
        if pending == 0 {
          var doc := t.parse(buffers[0]);
          buffers := buffers[1..];
          message := FromJson(doc, buffers);
          buffers := [];
          return false;
        }
        return true;
      }
      return false;
    }

    method Accept(t: JsonText, attachments: BufferList) returns (payload: string, hasBinary: bool)
      requires 0 <= frame <= 6 && kind >= 0 && attachments.items == []
      modifies this`kind, attachments
      ensures [payload] + attachments.items == Frames(t, old(State()))
      ensures hasBinary == (attachments.items != [])
      ensures kind == if frame == FRAME_MESSAGE then WireKind(old(kind), hasBinary) else old(kind)
    {
      payload := ['0' + frame as char];
      if frame != FRAME_MESSAGE {
        return payload, false;
      }
      var hasMessage, doc := false, JNull;
      if message != NoMessage {
        doc := AcceptMessage(message, attachments);
        hasMessage := true;
      }
      hasBinary := |attachments.items| > 0;
      var ss := WriteHeader(|attachments.items|);
      payload := payload + ss;
      ghost var head := payload;
      if hasMessage {
        payload := payload + t.write(doc);
      }
      assert payload == head + (if hasMessage then t.write(doc) else "");
      assert payload == Text(t, old(State()), doc, |attachments.items|);
    }

    method WriteHeader(count: nat) returns (ss: string)
      requires kind >= 0
      modifies this`kind
      ensures kind == WireKind(old(kind), count > 0)
      ensures ss == Header(old(State()), count)
    {
      kind := Determined(kind);
      if kind == TYPE_EVENT {
        kind := if count > 0 then TYPE_BINARY_EVENT else TYPE_EVENT;
      } else if kind == TYPE_ACK {
        kind := if count > 0 then TYPE_BINARY_ACK else TYPE_ACK;
      }
      ss := Dec(kind);
      ghost var s0 := ss;
      if count > 0 {
        ss := ss + (Dec(count) + "-");
      }
      assert ss == s0 + CountText(count);
      ghost var s1 := ss;
      if |nsp| > 0 && nsp != "/" {
        ss := ss + (if message != NoMessage || packId >= 0 then nsp + "," else nsp);
      }
      assert ss == s1 + NamespaceText(nsp, message != NoMessage || packId >= 0);
      ghost var s2 := ss;
      if packId >= 0 {
        ss := ss + Dec(packId);
      }
      assert ss == s2 + IdText(packId);
    }
  }

  // ----- packet_manager -----

  /** `m_partial_packet` after a payload, the packets handed to the decode callback, and whether an
      exception left `put_payload`. */
  datatype Receipt = Receipt(partial: Option<PacketState>, delivered: seq<PacketState>, thrown: bool)

  function Put(t: JsonText, partial: Option<PacketState>, payload: string): Receipt {
    if IsTextMessage(payload) then
      match Parse(t, BLANK, payload)
      case Thrown => Receipt(partial, [], true)
      case Parsed(p, true) => Receipt(Some(p), [], false)
      case Parsed(p, false) => Receipt(partial, [p], false)
    else if IsBinaryMessage(payload) then
      if partial.None? then Receipt(None, [], false)
      else
        var (p, more) := ParseBuffer(t, partial.value, payload);
        if more then Receipt(Some(p), [], false) else Receipt(None, [p], false)
    else
      match Parse(t, BLANK, payload)
      case Thrown => Receipt(partial, [], true)
      case Parsed(p, _) => Receipt(partial, [p], false)
  }

  class PacketManager {
    const json: JsonText
    var partial: Packet?

    function Partial(): Option<PacketState>
      reads this, partial
    {
      if partial == null then None else Some(partial.State())
    }

    constructor (json: JsonText)
      ensures this.json == json && partial == null
    {
      this.json := json;
      partial := null;
    }

    method Reset()
      modifies this`partial
      ensures partial == null && Partial() == None
    {
      partial := null;
    }

    /** `frames` are the calls of the encode callback: first the text, then the attachments. */
    method Encode(pack: Packet) returns (frames: seq<string>)
      requires 0 <= pack.frame <= 6 && pack.kind >= 0
      modifies pack`kind
      ensures frames == Frames(json, old(pack.State()))
    {
      var buffers := new BufferList();
      var text, hasBinary := pack.Accept(json, buffers);
      frames := [text];
      if hasBinary {
        for i := 0 to |buffers.items|
          invariant frames == [text] + buffers.items[..i]
        {
          frames := frames + [buffers.items[i]];
        }
        assert buffers.items[..|buffers.items|] == buffers.items;
      }
    }

    method PutPayload(payload: string) returns (delivered: seq<PacketState>, thrown: bool)
      modifies this`partial, partial
      ensures Receipt(Partial(), delivered, thrown) == Put(json, old(Partial()), payload)
      ensures partial == null || partial == old(partial) || fresh(partial)
    {
      delivered, thrown := [], false;
      if IsTextMessage(payload) {
        var p := new Packet.FromState(BLANK);
        var r := p.ParsePayload(json, payload);
        if r.Thrown? {
          thrown := true;
        } else if r.needsBuffers {
          partial := p;
        } else {
          delivered := [p.State()];
        }
      } else if IsBinaryMessage(payload) {
        if partial != null {
          var more := partial.ParseAttachment(json, payload);
          if !more {
            delivered := [partial.State()];
            partial := null;
          }
        }
      } else {
        var p := new Packet.FromState(BLANK);
        var r := p.ParsePayload(json, payload);
        if r.Thrown? {
          thrown := true;
        } else {
          delivered := [p.State()];
        }
      }
    }
  }
}
