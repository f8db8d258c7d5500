/** What the packet encoding promises: a stream of packets read back from its frames
    (sioclient/internal/sio_packet.cpp, encode and put_payload). */
module SioStream {
  import opened Options
  import opened SioMessage
  import opened Placeholders
  import opened SioPacket

  // ----- numbers -----

  lemma {:induction false} LeadingDigitsAppend(s: string, c: char, acc: nat)
    requires IsDigit(c) && forall k :: 0 <= k < |s| ==> IsDigit(s[k])
    ensures LeadingDigits(s + [c], acc) == LeadingDigits(s, acc) * 10 + DigitValue(c)
  {
    if s == [] {
      assert [c][1..] == [];
      assert s + [c] == [c];
    } else {
      assert (s + [c])[1..] == s[1..] + [c];
      LeadingDigitsAppend(s[1..], c, acc * 10 + DigitValue(s[0]));
    }
  }

  lemma {:induction false} DecReads(n: nat)
    ensures LeadingDigits(Dec(n), 0) == n && ReadInteger(Dec(n)) == Some(n)
  {
    if n < 10 {
      assert Dec(n)[1..] == [];
    } else {
      DecReads(n / 10);
      LeadingDigitsAppend(Dec(n / 10), '0' + (n % 10) as char, 0);
    }
    assert IsDigit(Dec(n)[0]);
  }

  // ----- searches in a concatenation -----

  lemma {:induction false} FindFirst(s: string, chars: set<char>, from: nat, at: nat)
    requires from <= at <= |s| && forall k :: from <= k < at ==> s[k] !in chars
    ensures at < |s| && s[at] in chars ==> FindFirstOf(s, chars, from) == at
    ensures at == |s| ==> FindFirstOf(s, chars, from) == NPOS
    decreases at - from
  {
    if from < at {
      FindFirst(s, chars, from + 1, at);
    }
  }

  lemma FindSkips(s: string, pre: string, mid: string, post: string, chars: set<char>)
    requires s == pre + mid + post
    requires forall k :: 0 <= k < |mid| ==> mid[k] !in chars
    requires post != [] && post[0] in chars
    ensures FindFirstOf(s, chars, |pre|) == |pre| + |mid|
  {
    assert s[|pre| + |mid|] == post[0];
    assert forall k :: |pre| <= k < |pre| + |mid| ==> s[k] == mid[k - |pre|];
    FindFirst(s, chars, |pre|, |pre| + |mid|);
  }

  lemma FindNothing(s: string, pre: string, post: string, chars: set<char>)
    requires s == pre + post && forall k :: 0 <= k < |post| ==> post[k] !in chars
    ensures FindFirstOf(s, chars, |pre|) == NPOS
  {
    assert forall k :: |pre| <= k < |s| ==> s[k] == post[k - |pre|];
    FindFirst(s, chars, |pre|, |s|);
  }

  // ----- one text frame -----

  predicate IsJsonStart(c: char) {
    c == '[' || c == '{' || c == '"'
  }

  predicate NamespaceOk(nsp: string) {
    nsp != "" && nsp[0] == '/' && ',' !in nsp
  }

  /** The packet that `parse` makes of an id and a JSON text. */
  function TailOf(t: JsonText, p: PacketState, packId: int, json: string): Parsed {
    var q := p.(packId := packId);
    if q.frame == FRAME_MESSAGE && IsBinaryKind(q.kind) then Parsed(q.(buffers := [json]), true)
    else Parsed(q.(message := FromJson(t.parse(json), [])), false)
  }

  lemma TailParses(t: JsonText, p: PacketState, s: string, pre: string, packId: int, json: string)
    requires -1 <= packId < 0x8000_0000 && json != [] && p.packId == -1
    requires s == pre + IdText(packId) + json
    ensures ParseTail(t, p, s, |pre|, |pre| + |IdText(packId)|) == TailOf(t, p, packId, json)
  {
    assert s[|pre| + |IdText(packId)|..] == json;
    assert s[|pre|..|pre| + |IdText(packId)|] == IdText(packId);
    if packId >= 0 {
      StoulDec(packId);
    }
  }

  /** Namespace, id and JSON text read back from any place after a prefix without a comma. */
  lemma BodyParses(t: JsonText, p: PacketState, s: string, pre: string, nsp: string, packId: int, json: string)
    requires -1 <= packId < 0x8000_0000 && p.packId == -1 && NamespaceOk(nsp)
    requires ',' !in pre
    requires if json == [] then packId == -1 else IsJsonStart(json[0])
    requires s == pre + NamespaceText(nsp, json != []) + IdText(packId) + json
    ensures ParseBody(t, p, s, |pre|)
         == if json == [] then Parsed(p.(nsp := nsp), false) else TailOf(t, p.(nsp := nsp), packId, json)
  {
    if nsp == "/" {
      RootBodyParses(t, p, s, pre, packId, json);
    } else if json == [] {
      BareNamespaceParses(t, p, s, pre, nsp);
    } else {
      NamespaceParses(t, p, s, pre, nsp, packId, json);
    }
  }

  lemma BareNamespaceParses(t: JsonText, p: PacketState, s: string, pre: string, nsp: string)
    requires NamespaceOk(nsp) && ',' !in pre && s == pre + nsp
    ensures ParseBody(t, p, s, |pre|) == Parsed(p.(nsp := nsp), false)
  {
    assert s == pre + [] + nsp;
    FindSkips(s, pre, [], nsp, BODY_STARTS);
    assert s == [] + s;
    FindNothing(s, [], s, COMMA);
    assert s[|pre|..] == nsp;
  }

  lemma NamespaceParses(t: JsonText, p: PacketState, s: string, pre: string, nsp: string, packId: int, json: string)
    requires -1 <= packId < 0x8000_0000 && p.packId == -1 && NamespaceOk(nsp) && nsp != "/"
    requires ',' !in pre && json != [] && IsJsonStart(json[0])
    requires s == pre + (nsp + ",") + IdText(packId) + json
    ensures ParseBody(t, p, s, |pre|) == TailOf(t, p.(nsp := nsp), packId, json)
  {
    var id := IdText(packId);
    NamespaceStarts(s, pre, nsp, id, json);
    NamespaceEnds(s, pre, nsp, id, json);
    var front := pre + nsp + ",";
    assert pre + (nsp + ",") == front;
    JsonAfterId(s, front, id, json, JSON_STARTS);
    BodyUnfolds(t, p, s, |pre|, |front| - 1, |front| + |id|);
    TailParses(t, p.(nsp := nsp), s, front, packId, json);
  }

  lemma BodyUnfolds(t: JsonText, p: PacketState, s: string, pos: nat, comma: nat, json: nat)
    requires pos <= comma < |s| && json < |s| && s[pos] == '/'
    requires FindFirstOf(s, BODY_STARTS, pos) == pos
    requires FindFirstOf(s, COMMA, 0) == comma
    requires FindFirstOf(s, JSON_STARTS, comma + 1) == json
    ensures ParseBody(t, p, s, pos) == ParseTail(t, p.(nsp := s[pos..comma]), s, comma + 1, json)
  {
  }

  lemma NamespaceStarts(s: string, pre: string, nsp: string, id: string, json: string)
    requires s == pre + (nsp + ",") + id + json && nsp != "" && nsp[0] == '/'
    ensures FindFirstOf(s, BODY_STARTS, |pre|) == |pre| && s[|pre|] == '/'
  {
    assert s[|pre|] == nsp[0];
    FindFirst(s, BODY_STARTS, |pre|, |pre|);
  }

  lemma NamespaceEnds(s: string, pre: string, nsp: string, id: string, json: string)
    requires s == pre + (nsp + ",") + id + json && ',' !in pre && ',' !in nsp
    ensures FindFirstOf(s, COMMA, 0) == |pre| + |nsp|
    ensures s[|pre|..|pre| + |nsp|] == nsp
  {
    assert forall k :: 0 <= k < |pre| ==> s[k] == pre[k];
    assert forall k :: |pre| <= k < |pre| + |nsp| ==> s[k] == nsp[k - |pre|];
    assert s[|pre| + |nsp|] == ',';
    FindFirst(s, COMMA, 0, |pre| + |nsp|);
  }

  lemma JsonAfterId(s: string, front: string, id: string, json: string, starts: set<char>)
    requires s == front + id + json && json != [] && IsJsonStart(json[0])
    requires forall k :: 0 <= k < |id| ==> IsDigit(id[k])
    requires starts == JSON_STARTS || starts == BODY_STARTS
    ensures FindFirstOf(s, starts, |front|) == |front| + |id| < |s|
  {
    FindSkips(s, front, id, json, starts);
  }

  lemma RootBodyParses(t: JsonText, p: PacketState, s: string, pre: string, packId: int, json: string)
    requires -1 <= packId < 0x8000_0000 && p.packId == -1
    requires if json == [] then packId == -1 else IsJsonStart(json[0])
    requires s == pre + "" + IdText(packId) + json
    ensures ParseBody(t, p, s, |pre|)
         == if json == [] then Parsed(p.(nsp := "/"), false) else TailOf(t, p.(nsp := "/"), packId, json)
  {
    var id := IdText(packId);
    assert s == pre + id + json;
    if json == [] {
      FindNothing(s, pre, [], BODY_STARTS);
    } else {
      JsonAfterId(s, pre, id, json, BODY_STARTS);
      assert s[|pre| + |id|] == json[0];
      TailParses(t, p.(nsp := "/"), s, pre, packId, json);
    }
  }

  /** The packets that the protocol lets a client send: events and acks, and connect, disconnect and
      error packets without binaries; an id only with a message; a message whose JSON text can be
      told from what precedes it. */
  ghost predicate Sendable(p: PacketState) {
    && p.frame == FRAME_MESSAGE && p.kind >= 0 && Determined(p.kind) <= TYPE_ERROR
    && NamespaceOk(p.nsp)
    && -1 <= p.packId < 0x8000_0000
    && (p.packId >= 0 ==> p.message != NoMessage)
    && (p.message != NoMessage ==>
          WellFormed(p.message) && Unmarked(p.message) && |Binaries(p.message)| < 0x8000_0000 && RootOk(p.message))
    && (Determined(p.kind) != TYPE_EVENT && Determined(p.kind) != TYPE_ACK ==> Binaries(p.message) == [])
  }

  predicate RootOk(m: Message) {
    m.ArrayMessage? || m.ObjectMessage? || m.StringMessage? || m.BinaryMessage?
  }

  /** What the receiver must be given for a packet. */
  function OnWire(p: PacketState): PacketState
    requires p.kind >= 0
  {
    PacketState(FRAME_MESSAGE, WireKind(p.kind, Binaries(p.message) != []), p.nsp, p.packId, p.message, 0, [])
  }

  /** The packet that waits for attachments once its header is parsed. */
  function Waiting(p: PacketState, json: string): PacketState
    requires p.kind >= 0
  {
    OnWire(p).(message := NoMessage, pending := |Binaries(p.message)|, buffers := [json])
  }

  lemma RootText(t: JsonText, m: Message)
    requires Lawful(t) && WellFormed(m) && RootOk(m)
    ensures var w := t.write(Accepted(m, []).0); w != [] && IsJsonStart(w[0])
  {
    AcceptedWritable(m, []);
  }

  /** The text frame of a packet reads back as the packet, or as its header when binaries follow. */
  lemma TextParses(t: JsonText, p: PacketState)
    requires Lawful(t) && Sendable(p)
    ensures |Frames(t, p)| > 0 && IsTextMessage(Frames(t, p)[0])
    ensures Frames(t, p)[1..] == Binaries(p.message)
    ensures Parse(t, BLANK, Frames(t, p)[0])
         == if Binaries(p.message) == [] then Parsed(OnWire(p), false)
            else Parsed(Waiting(p, t.write(Accepted(p.message, []).0)), true)
  {
    AcceptedAppends(p.message, []);
    var doc := Accepted(p.message, []).0;
    var count := |Binaries(p.message)|;
    var s := Frames(t, p)[0];
    var json := if p.message != NoMessage then t.write(doc) else "";
    assert s == Text(t, p, doc, count);
    if p.message != NoMessage {
      RootText(t, p.message);
    }
    var kind := WireKind(p.kind, count > 0);
    DecDigit(kind);
    SplitText("4", Dec(kind), CountText(count), NamespaceText(p.nsp, json != []), IdText(p.packId), json);
    HeaderParses(t, s, "4" + Dec(kind), kind, count, p.nsp, p.packId, json);
    if count == 0 && p.message != NoMessage {
      ReadsBack(t, p.message);
    }
  }

  lemma ReadsBack(t: JsonText, m: Message)
    requires Lawful(t) && WellFormed(m) && Unmarked(m) && |Binaries(m)| < 0x8000_0000
    ensures FromJson(t.parse(t.write(Accepted(m, []).0)), Binaries(m)) == m
  {
    assert [] + Binaries(m) + [] == Binaries(m);
    AcceptedWritable(m, []);
    ExtractionInvertible(m, [], []);
  }

  lemma HeaderParses(t: JsonText, s: string, head: string, kind: nat, count: nat, nsp: string, packId: int,
                     json: string)
    requires kind <= 6 && head == ['4', '0' + kind as char]
    requires IsBinaryKind(kind) <==> count > 0
    requires NamespaceOk(nsp) && -1 <= packId < 0x8000_0000 && count < 0x8000_0000
    requires if json == [] then packId == -1 && count == 0 else IsJsonStart(json[0])
    requires s == head + CountText(count) + NamespaceText(nsp, json != []) + IdText(packId) + json
    ensures var q := PacketState(FRAME_MESSAGE, kind, nsp, packId, NoMessage, count, []);
            var m := if json == [] then NoMessage else FromJson(t.parse(json), []);
            Parse(t, BLANK, s) == if count > 0 then Parsed(q.(buffers := [json]), true)
                                  else Parsed(q.(message := m), false)
  {
    HeaderRead(t, s, head, kind, count, NamespaceText(nsp, json != []), IdText(packId), json);
    NoComma(head, count);
    var q := PacketState(FRAME_MESSAGE, kind, "", -1, NoMessage, count, []);
    BodyParses(t, q, s, head + CountText(count), nsp, packId, json);
  }

  /** The type and the attachment count are read, and the rest is left to the body. */
  lemma HeaderRead(t: JsonText, s: string, head: string, kind: nat, count: nat, nsText: string, idText: string,
                   json: string)
    requires kind <= 6 && head == ['4', '0' + kind as char] && count < 0x8000_0000
    requires IsBinaryKind(kind) <==> count > 0
    requires s == head + CountText(count) + nsText + idText + json
    ensures Parse(t, BLANK, s)
         == ParseBody(t, PacketState(FRAME_MESSAGE, kind, "", -1, NoMessage, count, []), s, |head + CountText(count)|)
  {
    assert s == head + CountText(count) + (nsText + idText + json);
    CountParses(s, head, count, nsText + idText + json);
    KindParses(t, s, kind, count);
  }

  lemma NoComma(head: string, count: nat)
    requires ',' !in head
    ensures ',' !in head + CountText(count)
  {
    assert ',' !in CountText(count);
  }

  lemma SplitText(a: string, b: string, c: string, d: string, e: string, f: string)
    ensures a + (b + c + d + e) + f == a + b + c + d + e + f
  {
  }

  lemma KindParses(t: JsonText, s: string, kind: nat, count: nat)
    requires kind <= 6 && |s| >= 2 && s[0] == '4' && s[1] == '0' + kind as char
    requires IsBinaryKind(kind) <==> count > 0
    requires count > 0 ==>
               FindFirstOf(s, DASH, 0) == 2 + |Dec(count)| < |s| && Stoul(s[2..2 + |Dec(count)|]) == Some(count)
    ensures Parse(t, BLANK, s)
         == ParseBody(t, PacketState(FRAME_MESSAGE, kind, "", -1, NoMessage, count, []), s, 2 + |CountText(count)|)
  {
  }

  lemma DecDigit(n: nat)
    requires n < 10
    ensures Dec(n) == ['0' + n as char]
  {
  }

  lemma CountParses(s: string, head: string, count: nat, rest: string)
    requires count < 0x8000_0000 && |head| == 2 && '-' !in head
    requires s == head + CountText(count) + rest
    ensures count > 0 ==>
              FindFirstOf(s, DASH, 0) == 2 + |Dec(count)| < |s| && Stoul(s[2..2 + |Dec(count)|]) == Some(count)
  {
    if count > 0 {
      StoulDec(count);
      DashFound(s, head, Dec(count), rest);
    }
  }

  lemma DashFound(s: string, head: string, digits: string, rest: string)
    requires |head| == 2 && '-' !in head && '-' !in digits
    requires s == head + (digits + "-") + rest
    ensures FindFirstOf(s, DASH, 0) == 2 + |digits| < |s|
    ensures s[2..2 + |digits|] == digits
  {
    assert forall k :: 2 <= k < 2 + |digits| ==> s[k] == digits[k - 2];
    assert s[0] == head[0] && s[1] == head[1];
    FindFirst(s, DASH, 0, 2 + |digits|);
  }

  lemma StoulDec(n: nat)
    requires n < 0x8000_0000
    ensures Stoul(Dec(n)) == Some(n) && Stoi(Dec(n)) == Some(n)
  {
    DecReads(n);
  }

  // ----- streams -----

  /** Feeding payloads one by one: the partial packet left, and all packets delivered. */
  function Receive(t: JsonText, partial: Option<PacketState>,
                   payloads: seq<string>): (Option<PacketState>, seq<PacketState>)
    decreases |payloads|
  {
    if payloads == [] then (partial, [])
    else
      var r := Put(t, partial, payloads[0]);
      var (end, more) := Receive(t, r.partial, payloads[1..]);
      (end, r.delivered + more)
  }

  lemma {:induction false} ReceiveAppend(t: JsonText, partial: Option<PacketState>, a: seq<string>, b: seq<string>)
    ensures var (mid, first) := Receive(t, partial, a);
            var (end, second) := Receive(t, mid, b);
            Receive(t, partial, a + b).0 == end && Receive(t, partial, a + b).1 == first + second
    decreases |a|
  {
    if a == [] {
      assert a + b == b;
    } else {
      assert (a + b)[1..] == a[1..] + b;
      var r := Put(t, partial, a[0]);
      ReceiveAppend(t, r.partial, a[1..], b);
      var (mid, first) := Receive(t, r.partial, a[1..]);
      var second := Receive(t, mid, b).1;
      assert r.delivered + (first + second) == (r.delivered + first) + second;
    }
  }

  /** The packet once its last attachment has arrived. */
  function Completed(t: JsonText, p: PacketState, attachments: seq<string>): PacketState
    requires p.buffers != []
  {
    p.(message := FromJson(t.parse(p.buffers[0]), p.buffers[1..] + attachments), pending := 0, buffers := [])
  }

  /** A payload that neither is an attachment nor announces attachments. */
  predicate Quiet(t: JsonText, payload: string) {
    && !IsBinaryMessage(payload)
    && (IsTextMessage(payload) ==> var r := Parse(t, BLANK, payload); r.Parsed? ==> !r.needsBuffers)
  }

  function AtOnce(t: JsonText, payload: string): seq<PacketState> {
    var r := Parse(t, BLANK, payload);
    if r.Parsed? && !IsBinaryMessage(payload) then [r.packet] else []
  }

  /** Deliveries of the payloads that are not attachments, taken alone. */
  function AllAtOnce(t: JsonText, payloads: seq<string>): seq<PacketState> {
    if payloads == [] then [] else AtOnce(t, payloads[0]) + AllAtOnce(t, payloads[1..])
  }

  function Attachments(payloads: seq<string>): seq<string> {
    if payloads == [] then []
    else (if IsBinaryMessage(payloads[0]) then [payloads[0]] else []) + Attachments(payloads[1..])
  }

  /** Reassembly isolation: whatever payloads other than binary headers arrive between a header and
      its attachments are delivered at once and in order; the pending packet is delivered exactly at
      its last attachment and is made of its own attachments only. */
  lemma {:induction false} ReassemblyIsolated(t: JsonText, p: PacketState, payloads: seq<string>)
    requires p.pending > 0 && p.buffers != []
    requires forall k :: 0 <= k < |payloads| ==> IsBinaryMessage(payloads[k]) || Quiet(t, payloads[k])
    requires |Attachments(payloads)| == p.pending
    requires IsBinaryMessage(payloads[|payloads| - 1])
    ensures Receive(t, Some(p), payloads).0 == None
    ensures Receive(t, Some(p), payloads).1 == AllAtOnce(t, payloads) + [Completed(t, p, Attachments(payloads))]
    decreases |payloads|
  {
    var head, tail := payloads[0], payloads[1..];
    if |payloads| > 1 {
      assert tail[|tail| - 1] == payloads[|payloads| - 1];
      assert Attachments(tail) != [] by { LastAttachment(tail); }
    } else {
      assert tail == [];
    }
    if IsBinaryMessage(head) {
      assert (p.buffers + [head])[1..] == p.buffers[1..] + [head];
      if p.pending > 1 {
        var q := ParseBuffer(t, p, head).0;
        assert q.buffers[1..] + Attachments(tail) == p.buffers[1..] + Attachments(payloads);
        ReassemblyIsolated(t, q, tail);
        assert Completed(t, q, Attachments(tail)) == Completed(t, p, Attachments(payloads));
        assert AllAtOnce(t, payloads) == AllAtOnce(t, tail);
        assert Put(t, Some(p), head) == Receipt(Some(q), [], false);
      } else {
        assert |payloads| == 1;
        assert Attachments(payloads) == [head];
        assert p.buffers[1..] + [head] == p.buffers[1..] + Attachments(payloads);
      }
    } else {
      assert Quiet(t, head);
      ReassemblyIsolated(t, p, tail);
      assert Attachments(payloads) == Attachments(tail);
      assert AtOnce(t, head) + (AllAtOnce(t, tail) + [Completed(t, p, Attachments(tail))])
          == AllAtOnce(t, payloads) + [Completed(t, p, Attachments(tail))];
    }
  }

  /** Until the last attachment: quiet payloads are delivered at once and leave the pending packet as it is,
      and attachments are only collected, in order. */
  lemma {:induction false} ReassemblyPending(t: JsonText, p: PacketState, payloads: seq<string>)
    requires forall k :: 0 <= k < |payloads| ==> IsBinaryMessage(payloads[k]) || Quiet(t, payloads[k])
    requires |Attachments(payloads)| < p.pending
    ensures var count := |Attachments(payloads)|;
            Receive(t, Some(p), payloads)
            == (Some(p.(buffers := p.buffers + Attachments(payloads), pending := p.pending - count)),
                AllAtOnce(t, payloads))
    decreases |payloads|
  {
    if payloads == [] {
      assert p.buffers + [] == p.buffers;
    } else {
      var head, tail := payloads[0], payloads[1..];
      if IsBinaryMessage(head) {
        var q := ParseBuffer(t, p, head).0;
        assert Put(t, Some(p), head) == Receipt(Some(q), [], false);
        assert q.buffers + Attachments(tail) == p.buffers + Attachments(payloads);
        ReassemblyPending(t, q, tail);
        assert AllAtOnce(t, payloads) == AllAtOnce(t, tail);
      } else {
        assert Quiet(t, head);
        assert Attachments(payloads) == Attachments(tail);
        ReassemblyPending(t, p, tail);
      }
    }
  }

  lemma {:induction false} LastAttachment(payloads: seq<string>)
    requires payloads != [] && IsBinaryMessage(payloads[|payloads| - 1])
    ensures Attachments(payloads) != []
    decreases |payloads|
  {
    if |payloads| > 1 {
      LastAttachment(payloads[1..]);
    }
  }

  ghost predicate AllBinary(payloads: seq<string>) {
    forall b :: b in payloads ==> IsBinaryMessage(b)
  }

  lemma {:induction false} AllBinaryAttachments(t: JsonText, payloads: seq<string>)
    requires AllBinary(payloads)
    ensures Attachments(payloads) == payloads && AllAtOnce(t, payloads) == []
  {
    if payloads != [] {
      assert payloads == [payloads[0]] + payloads[1..];
      AllBinaryAttachments(t, payloads[1..]);
    }
  }

  /** One packet, whatever was pending before: its frames deliver it, and nothing else. A packet with
      attachments leaves nothing pending; one without leaves what was. */
  lemma PacketRoundTrip(t: JsonText, partial: Option<PacketState>, p: PacketState)
    requires Lawful(t) && Sendable(p) && AllBinary(Binaries(p.message))
    ensures Receive(t, partial, Frames(t, p)).0 == if Binaries(p.message) == [] then partial else None
    ensures Receive(t, partial, Frames(t, p)).1 == [OnWire(p)]
  {
    TextParses(t, p);
    var fs := Frames(t, p);
    var bs := Binaries(p.message);
    assert fs[1..] == bs;
    if bs == [] {
      assert Put(t, partial, fs[0]) == Receipt(partial, [OnWire(p)], false);
    } else {
      var w := Waiting(p, t.write(Accepted(p.message, []).0));
      AttachmentsComplete(t, w, bs);
      ReadsBack(t, p.message);
      assert w.buffers[1..] + bs == bs;
      assert Put(t, partial, fs[0]) == Receipt(Some(w), [], false);
    }
  }

  lemma AttachmentsComplete(t: JsonText, w: PacketState, bs: seq<string>)
    requires w.buffers != [] && |bs| == w.pending > 0 && AllBinary(bs)
    ensures Receive(t, Some(w), bs).0 == None
    ensures Receive(t, Some(w), bs).1 == [Completed(t, w, bs)]
  {
    AllBinaryAttachments(t, bs);
    ReassemblyIsolated(t, w, bs);
  }

  // ----- attachments that are not binary messages -----

  /** The binaries of a rebuilt tree come from the buffers. */
  lemma {:induction false} FromJsonBinaries(j: Json, buffers: seq<string>)
    ensures forall b :: b in Binaries(FromJson(j, buffers)) ==> b in buffers
    decreases j, 1
  {
    match j
    case JArray(items) => FromItemsBinaries(items, buffers);
    case JObject(members) =>
      if !IsPlaceholder(members) {
        FromMembersBinaries(members, [], buffers);
      }
    case _ =>
  }

  lemma {:induction false} FromItemsBinaries(items: seq<Json>, buffers: seq<string>)
    ensures forall b :: b in ItemBinaries(FromItems(items, buffers)) ==> b in buffers
    decreases items, 0
  {
    if items != [] {
      FromJsonBinaries(items[0], buffers);
      FromItemsBinaries(items[1..], buffers);
      assert FromItems(items, buffers)[1..] == FromItems(items[1..], buffers);
    }
  }

  lemma {:induction false} FromMembersBinaries(members: seq<Entry<Json>>, built: seq<Entry<Message>>,
                                               buffers: seq<string>)
    requires forall b :: b in EntryBinaries(built) ==> b in buffers
    ensures forall b :: b in EntryBinaries(FromMembers(members, built, buffers)) ==> b in buffers
    decreases members, 0
  {
    if members != [] {
      var m := FromJson(members[0].value, buffers);
      FromJsonBinaries(members[0].value, buffers);
      MapSetBinaries(built, members[0].key, m);
      FromMembersBinaries(members[1..], MapSet(built, members[0].key, m), buffers);
    }
  }

  lemma {:induction false} MapSetBinaries(es: seq<Entry<Message>>, key: string, m: Message)
    ensures forall b :: b in EntryBinaries(MapSet(es, key, m)) ==> b in EntryBinaries(es) || b in Binaries(m)
  {
    var r := MapSet(es, key, m);
    if es == [] || KeyLess(key, es[0].key) {
      assert r[1..] == es;
    } else if es[0].key == key {
      assert r[1..] == es[1..];
    } else {
      assert r[1..] == MapSet(es[1..], key, m);
      MapSetBinaries(es[1..], key, m);
    }
  }

  ghost predicate BuffersBinary(partial: Option<PacketState>) {
    partial.Some? ==>
      partial.value.message == NoMessage && partial.value.buffers != [] && AllBinary(partial.value.buffers[1..])
  }

  lemma NoBuffersNoBinaries(j: Json)
    ensures Binaries(FromJson(j, [])) == []
  {
    var bs := Binaries(FromJson(j, []));
    if bs != [] {
      assert bs[0] in bs;
      FromJsonBinaries(j, []);
      assert false;
    }
  }

  lemma BodyBinaries(t: JsonText, p: PacketState, s: string, pos: nat)
    requires p.message == NoMessage && p.buffers == []
    ensures var r := ParseBody(t, p, s, pos);
            r.Parsed? ==> Binaries(r.packet.message) == [] && (r.needsBuffers ==> BuffersBinary(Some(r.packet)))
  {
    var r := ParseBody(t, p, s, pos);
    if r.Parsed? && r.packet.message != NoMessage {
      var json: nat :| json < |s| && r.packet.message == FromJson(t.parse(s[json..]), []);
      NoBuffersNoBinaries(t.parse(s[json..]));
    }
  }

  lemma ParseBinaries(t: JsonText, s: string)
    ensures var r := Parse(t, BLANK, s);
            r.Parsed? ==> Binaries(r.packet.message) == [] && (r.needsBuffers ==> BuffersBinary(Some(r.packet)))
  {
    forall p: PacketState, pos: nat | p.message == NoMessage && p.buffers == []
      ensures var r := ParseBody(t, p, s, pos);
              r.Parsed? ==> Binaries(r.packet.message) == [] && (r.needsBuffers ==> BuffersBinary(Some(r.packet)))
    {
      BodyBinaries(t, p, s, pos);
    }
  }

  /** Only binary messages can get into a delivered packet, whatever the stream. */
  lemma PutBinaries(t: JsonText, partial: Option<PacketState>, payload: string)
    requires BuffersBinary(partial)
    ensures BuffersBinary(Put(t, partial, payload).partial)
    ensures forall q :: q in Put(t, partial, payload).delivered ==> AllBinary(Binaries(q.message))
  {
    if IsBinaryMessage(payload) {
      if partial.Some? && partial.value.pending > 0 {
        var p := partial.value;
        var buffers := p.buffers + [payload];
        assert buffers[1..] == p.buffers[1..] + [payload];
        FromJsonBinaries(t.parse(buffers[0]), buffers[1..]);
      }
    } else {
      ParseBinaries(t, payload);
    }
  }

  lemma {:induction false} ReceiveBinaries(t: JsonText, partial: Option<PacketState>, payloads: seq<string>)
    requires BuffersBinary(partial)
    ensures forall q :: q in Receive(t, partial, payloads).1 ==> AllBinary(Binaries(q.message))
    decreases |payloads|
  {
    if payloads != [] {
      PutBinaries(t, partial, payloads[0]);
      ReceiveBinaries(t, Put(t, partial, payloads[0]).partial, payloads[1..]);
    }
  }

  // ----- the stream theorem -----

  function StreamOf(t: JsonText, ps: seq<PacketState>): seq<string>
    requires forall k :: 0 <= k < |ps| ==> Sendable(ps[k])
  {
    if ps == [] then [] else assert Sendable(ps[0]); Frames(t, ps[0]) + StreamOf(t, ps[1..])
  }

  function OnWires(ps: seq<PacketState>): seq<PacketState>
    requires forall k :: 0 <= k < |ps| ==> Sendable(ps[k])
  {
    if ps == [] then [] else assert Sendable(ps[0]); [OnWire(ps[0])] + OnWires(ps[1..])
  }

  lemma {:induction false} StreamDelivers(t: JsonText, ps: seq<PacketState>)
    requires Lawful(t) && forall k :: 0 <= k < |ps| ==> Sendable(ps[k])
    requires forall k :: 0 <= k < |ps| ==> AllBinary(Binaries(ps[k].message))
    ensures Receive(t, None, StreamOf(t, ps)).0 == None
    ensures Receive(t, None, StreamOf(t, ps)).1 == OnWires(ps)
  {
    if ps != [] {
      PacketRoundTrip(t, None, ps[0]);
      StreamDelivers(t, ps[1..]);
      ReceiveAppend(t, None, Frames(t, ps[0]), StreamOf(t, ps[1..]));
    }
  }

  lemma {:induction false} OnWiresAt(ps: seq<PacketState>, k: nat)
    requires (forall i :: 0 <= i < |ps| ==> Sendable(ps[i])) && k < |ps|
    ensures Sendable(ps[k]) && OnWire(ps[k]) in OnWires(ps)
  {
    if k > 0 {
      OnWiresAt(ps[1..], k - 1);
    }
  }

  /** The stream round trip: feeding the frames of any list of packets, one by one, delivers exactly
      those packets, in order, and leaves none pending, if and only if every attachment is what
      `is_binary_message` takes for one. */
  lemma StreamRoundTrip(t: JsonText, ps: seq<PacketState>)
    requires Lawful(t) && forall k :: 0 <= k < |ps| ==> Sendable(ps[k])
    ensures Receive(t, None, StreamOf(t, ps)).1 == OnWires(ps)
       <==> forall k :: 0 <= k < |ps| ==> AllBinary(Binaries(ps[k].message))
    ensures Receive(t, None, StreamOf(t, ps)).1 == OnWires(ps) ==> Receive(t, None, StreamOf(t, ps)).0 == None
  {
    if forall k :: 0 <= k < |ps| ==> AllBinary(Binaries(ps[k].message)) {
      StreamDelivers(t, ps);
    } else {
      ReceiveBinaries(t, None, StreamOf(t, ps));
      var k :| 0 <= k < |ps| && !AllBinary(Binaries(ps[k].message));
      OnWiresAt(ps, k);
      assert OnWire(ps[k]).message == ps[k].message;
    }
  }
}
