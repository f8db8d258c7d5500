/** Splitting an H.264 byte stream at its start codes (ITU-T H.264 section B.1;
    `splitNalUnits` of src/topic_reader_h264.cpp). */
module NalUnits {

  newtype byte = b: int | 0 <= b < 256

  /** The last byte of a start code 00 00 01 is at `i`; one of four bytes ends in one of three. */
  predicate EndsCode(d: seq<byte>, i: nat) {
    2 <= i < |d| && d[i] == 1 && d[i - 1] == 0 && d[i - 2] == 0
  }

  /** The range `[from, to)` of a unit in the data. */
  datatype Cut = Cut(from: nat, to: nat)

  /** A unit may start at 0 or right after a start code. */
  predicate StartOk(d: seq<byte>, start: nat) {
    start <= |d| && (start == 0 || (start >= 3 && d[start - 1] == 1))
  }

  /** Where the unit before the start code ending at `i` ends. */
  function UnitEnd(d: seq<byte>, start: nat, i: nat): (e: nat)
    requires StartOk(d, start) && 0 < start <= i && EndsCode(d, i)
    ensures start <= e <= i - 2
  {
    if d[i - 3] == 0 then i - 3 else i - 2
  }

  /** The cuts made from position `i` on, when the current unit starts at `start`. */
  function Cuts(d: seq<byte>, i: nat, start: nat): seq<Cut>
    requires StartOk(d, start) && start <= i <= |d|
    decreases |d| - i
  {
    if i == |d| then (if start < |d| then [Cut(start, |d|)] else [])
    else if EndsCode(d, i) then
      (if start > 0 then [Cut(start, UnitEnd(d, start, i))] else []) + Cuts(d, i + 1, i + 1)
    else Cuts(d, i + 1, start)
  }

  ghost predicate CutsIn(d: seq<byte>, cs: seq<Cut>) {
    forall k :: 0 <= k < |cs| ==> cs[k].from <= cs[k].to <= |d|
  }

  function Slices(d: seq<byte>, cs: seq<Cut>): seq<seq<byte>>
    requires CutsIn(d, cs)
  {
    if cs == [] then [] else [d[cs[0].from..cs[0].to]] + Slices(d, cs[1..])
  }

  lemma {:induction false} SlicesAt(d: seq<byte>, cs: seq<Cut>)
    requires CutsIn(d, cs)
    ensures |Slices(d, cs)| == |cs| && forall k :: 0 <= k < |cs| ==> Slices(d, cs)[k] == d[cs[k].from..cs[k].to]
  {
    if cs != [] {
      SlicesAt(d, cs[1..]);
    }
  }

  /** No start code within the unit. */
  ghost predicate CodeFree(u: seq<byte>) {
    forall k :: 0 <= k < |u| ==> !EndsCode(u, k)
  }

  ghost predicate Ordered(cs: seq<Cut>) {
    forall j, k :: 0 <= j < k < |cs| ==> cs[j].to < cs[k].from
  }

  /** On arbitrary bytes the cuts are in bounds, in order and disjoint, none before the current unit. */
  lemma {:induction false} CutsInOrder(d: seq<byte>, i: nat, start: nat)
    requires StartOk(d, start) && start <= i <= |d|
    ensures CutsIn(d, Cuts(d, i, start)) && Ordered(Cuts(d, i, start))
    ensures forall k :: 0 <= k < |Cuts(d, i, start)| ==> Cuts(d, i, start)[k].from >= start
    decreases |d| - i
  {
    if i < |d| {
      if EndsCode(d, i) {
        CutsInOrder(d, i + 1, i + 1);
      } else {
        CutsInOrder(d, i + 1, start);
      }
    }
  }

  /** No unit cut out of arbitrary bytes contains a start code. */
  lemma {:induction false} CutsAreCodeFree(d: seq<byte>, i: nat, start: nat)
    requires StartOk(d, start) && start <= i <= |d|
    requires forall k :: start <= k < i ==> !EndsCode(d, k)
    ensures CutsIn(d, Cuts(d, i, start))
    ensures forall k :: 0 <= k < |Cuts(d, i, start)| ==> CodeFree(d[Cuts(d, i, start)[k].from..Cuts(d, i, start)[k].to])
    decreases |d| - i
  {
    CutsInOrder(d, i, start);
    if i == |d| {
      SliceCodeFree(d, start, |d|);
    } else if EndsCode(d, i) {
      CutsAreCodeFree(d, i + 1, i + 1);
      if start > 0 {
        SliceCodeFree(d, start, UnitEnd(d, start, i));
      }
    } else {
      CutsAreCodeFree(d, i + 1, start);
    }
  }

  lemma SliceCodeFree(d: seq<byte>, from: nat, to: nat)
    requires from <= to <= |d| && forall k :: from <= k < to ==> !EndsCode(d, k)
    ensures CodeFree(d[from..to])
  {
    forall k | 0 <= k < to - from ensures !EndsCode(d[from..to], k) {
      assert !EndsCode(d, from + k);
    }
  }

  /** The units cut from position `i` on. */
  function SplitFrom(d: seq<byte>, i: nat, start: nat): seq<seq<byte>>
    requires StartOk(d, start) && start <= i <= |d|
  {
    CutsInOrder(d, i, start);
    Slices(d, Cuts(d, i, start))
  }

  /** The units of the data: what `splitNalUnits` returns. */
  function Split(d: seq<byte>): seq<seq<byte>> {
    SplitFrom(d, 0, 0)
  }

  lemma SplitStep(d: seq<byte>, i: nat, start: nat)
    requires StartOk(d, start) && start <= i <= |d|
    ensures i == |d| ==> SplitFrom(d, i, start) == if start < |d| then [d[start..|d|]] else []
    ensures i < |d| && !EndsCode(d, i) ==> SplitFrom(d, i, start) == SplitFrom(d, i + 1, start)
    ensures i < |d| && EndsCode(d, i) ==>
      SplitFrom(d, i, start) == (if start > 0 then [d[start..UnitEnd(d, start, i)]] else [])
        + SplitFrom(d, i + 1, i + 1)
  {
    var cs := Cuts(d, i, start);
    CutsInOrder(d, i, start);
    if i == |d| {
      if start < |d| {
        assert Slices(d, cs) == [d[start..|d|]] + Slices(d, cs[1..]);
        assert cs[1..] == [];
      }
    } else if EndsCode(d, i) {
      CutsInOrder(d, i + 1, i + 1);
      if start > 0 {
        CutsAt(d, i, start);
        assert Slices(d, cs) == [d[cs[0].from..cs[0].to]] + Slices(d, cs[1..]);
        assert cs[1..] == Cuts(d, i + 1, i + 1);
      } else {
        assert cs == Cuts(d, i + 1, i + 1);
      }
    }
  }

  lemma PushUnit(a: seq<seq<byte>>, u: seq<byte>, b: seq<seq<byte>>)
    ensures a + ([u] + b) == a + [u] + b
  {
  }

  method SplitNalUnits(data: array<byte>) returns (nalUnits: seq<seq<byte>>)
    ensures nalUnits == Split(data[..])
  {
    ghost var d := data[..];
    nalUnits := [];
    var start: nat := 0;
    for i := 0 to data.Length
      invariant StartOk(d, start) && start <= i
      invariant Split(d) == nalUnits + SplitFrom(d, i, start)
    {
      SplitStep(d, i, start);
      if (i >= 3 && data[i] == 1 && data[i - 1] == 0 && data[i - 2] == 0 && data[i - 3] == 0) ||
         (i >= 2 && data[i] == 1 && data[i - 1] == 0 && data[i - 2] == 0) {
        assert EndsCode(d, i);
        if start > 0 {
          var nalStart := if data[i - 3] == 0 then i - 3 else i - 2;
          assert nalStart == UnitEnd(d, start, i);
          PushUnit(nalUnits, data[start..nalStart], SplitFrom(d, i + 1, i + 1));
          nalUnits := nalUnits + [data[start..nalStart]];
        }
        start := i + 1;
      }
    }
    SplitStep(d, data.Length, start);
    if start < data.Length {
      nalUnits := nalUnits + [data[start..data.Length]];
    }
  }

  lemma CutsAt(d: seq<byte>, i: nat, start: nat)
    requires StartOk(d, start) && 0 < start <= i && EndsCode(d, i)
    ensures Cuts(d, i, start) == [Cut(start, UnitEnd(d, start, i))] + Cuts(d, i + 1, i + 1)
  {
  }

  // ----- units joined by start codes -----

  function Code(long: bool): seq<byte> {
    if long then [0, 0, 0, 1] else [0, 0, 1]
  }

  /** The units, each after a start code of four bytes or of three. */
  function Stream(units: seq<seq<byte>>, longs: seq<bool>): seq<byte>
    requires |units| == |longs|
  {
    if units == [] then [] else Code(longs[0]) + units[0] + Stream(units[1..], longs[1..])
  }

  /** What splitting makes of a unit before a start code. */
  function BeforeCode(u: seq<byte>, long: bool): seq<byte> {
    if !long && u != [] && u[|u| - 1] == 0 then u[..|u| - 1] else u
  }

  /** What splitting makes of units without start codes: a zero before a three-byte start code is
      taken for part of it, and an empty unit at the end is not seen. */
  function Trimmed(units: seq<seq<byte>>, longs: seq<bool>): seq<seq<byte>>
    requires |units| == |longs|
  {
    if units == [] then []
    else if |units| == 1 then (if units[0] == [] then [] else units)
    else
      [BeforeCode(units[0], longs[1])] + Trimmed(units[1..], longs[1..])
  }

  lemma {:induction false} CutsSkip(d: seq<byte>, i: nat, j: nat, start: nat)
    requires StartOk(d, start) && start <= i <= j <= |d|
    requires forall k :: i <= k < j ==> !EndsCode(d, k)
    ensures Cuts(d, i, start) == Cuts(d, j, start)
    decreases j - i
  {
    if i < j {
      CutsSkip(d, i + 1, j, start);
    }
  }

  /** Within a code-free unit that follows a start code, and in the zeros after it, no code ends. */
  lemma NoCodeWithin(d: seq<byte>, pre: seq<byte>, u: seq<byte>, zeros: nat, rest: seq<byte>)
    requires |pre| >= 3 && pre[|pre| - 1] == 1 && CodeFree(u)
    requires zeros <= |rest| && forall k :: 0 <= k < zeros ==> rest[k] == 0
    requires d == pre + u + rest
    ensures forall k :: |pre| <= k < |pre| + |u| + zeros ==> !EndsCode(d, k)
  {
    forall k | |pre| <= k < |pre| + |u| + zeros ensures !EndsCode(d, k) {
      if k < |pre| + |u| {
        assert !EndsCode(u, k - |pre|);
        assert d[k] == u[k - |pre|];
        assert d[|pre| - 1] == 1;
        if k >= |pre| + 2 {
          assert d[k - 1] == u[k - 1 - |pre|] && d[k - 2] == u[k - 2 - |pre|];
        }
      } else {
        assert d[k] == rest[k - |pre| - |u|];
      }
    }
  }

  /** From the start of a unit on, the cuts give the trimmed units. */
  lemma {:induction false} CutsOfStream(d: seq<byte>, pre: seq<byte>, units: seq<seq<byte>>, longs: seq<bool>)
    requires |units| == |longs| > 0 && forall k :: 0 <= k < |units| ==> CodeFree(units[k])
    requires |pre| >= 3 && pre[|pre| - 1] == 1
    requires d == pre + units[0] + Stream(units[1..], longs[1..])
    ensures StartOk(d, |pre|) && CutsIn(d, Cuts(d, |pre|, |pre|))
    ensures Slices(d, Cuts(d, |pre|, |pre|)) == Trimmed(units, longs)
    decreases |units|
  {
    StreamStarts(d, pre, units[0], Stream(units[1..], longs[1..]));
    if |units| == 1 {
      LastUnit(d, pre, units[0], Stream(units[1..], longs[1..]));
    } else {
      var us, ls := units[1..], longs[1..];
      var pre' := StreamSplits(d, pre, units[0], us, ls);
      CutsOfStream(d, pre', us, ls);
      NextTrimmed(d, |pre|, units, longs, |pre'| - 1);
    }
  }

  lemma NextTrimmed(d: seq<byte>, start: nat, units: seq<seq<byte>>, longs: seq<bool>, e: nat)
    requires |units| == |longs| > 1 && UnitThenCode(d, start, units[0], longs[1], e) && StartOk(d, e + 1)
    requires CutsIn(d, Cuts(d, start, start)) && CutsIn(d, Cuts(d, e + 1, e + 1))
    requires Slices(d, Cuts(d, e + 1, e + 1)) == Trimmed(units[1..], longs[1..])
    ensures Slices(d, Cuts(d, start, start)) == Trimmed(units, longs)
  {
    NextUnit(d, start, units[0], longs[1], e);
  }

  /** The stream from the second unit on. */
  lemma StreamSplits(d: seq<byte>, pre: seq<byte>, u: seq<byte>, us: seq<seq<byte>>, ls: seq<bool>)
    returns (pre': seq<byte>)
    requires |pre| >= 3 && pre[|pre| - 1] == 1 && CodeFree(u)
    requires |us| == |ls| > 0 && d == pre + u + Stream(us, ls)
    ensures |pre'| >= 3 && pre'[|pre'| - 1] == 1
    ensures d == pre' + us[0] + Stream(us[1..], ls[1..])
    ensures UnitThenCode(d, |pre|, u, ls[0], |pre'| - 1)
  {
    pre' := pre + u + Code(ls[0]);
    var code, rest := Code(ls[0]), Stream(us[1..], ls[1..]);
    assert Stream(us, ls) == code + us[0] + rest;
    Regroup(pre + u, code, us[0], rest);
    assert pre'[|pre'| - 1] == code[|code| - 1];
    CodeFollows(d, pre, u, ls[0], us[0] + rest);
  }

  lemma Regroup(a: seq<byte>, b: seq<byte>, c: seq<byte>, d: seq<byte>)
    ensures a + (b + c + d) == a + b + c + d == a + (b + (c + d))
  {
  }

  lemma StreamStarts(d: seq<byte>, pre: seq<byte>, u: seq<byte>, rest: seq<byte>)
    requires |pre| >= 3 && pre[|pre| - 1] == 1 && d == pre + u + rest
    ensures StartOk(d, |pre|) && CutsIn(d, Cuts(d, |pre|, |pre|))
  {
    assert d[|pre| - 1] == pre[|pre| - 1];
    CutsInOrder(d, |pre|, |pre|);
  }

  lemma LastUnit(d: seq<byte>, pre: seq<byte>, u: seq<byte>, none: seq<byte>)
    requires |pre| >= 3 && pre[|pre| - 1] == 1 && CodeFree(u) && d == pre + u + none && none == []
    requires StartOk(d, |pre|) && CutsIn(d, Cuts(d, |pre|, |pre|))
    ensures Slices(d, Cuts(d, |pre|, |pre|)) == if u == [] then [] else [u]
  {
    NoCodeWithin(d, pre, u, 0, []);
    CutsSkip(d, |pre|, |d|, |pre|);
    assert d[|pre|..] == u;
  }

  /** The unit `u` starts at `start`, and the start code after it ends at `e`. */
  ghost predicate UnitThenCode(d: seq<byte>, start: nat, u: seq<byte>, long: bool, e: nat) {
    && StartOk(d, start) && 0 < start <= e && EndsCode(d, e)
    && (forall k :: start <= k < e ==> !EndsCode(d, k))
    && d[start..UnitEnd(d, start, e)] == BeforeCode(u, long)
  }

  lemma CodeZeros(long: bool, after: seq<byte>, rest: seq<byte>)
    requires rest == Code(long) + after
    ensures |Code(long)| <= |rest| && forall k :: 0 <= k < |Code(long)| - 1 ==> rest[k] == 0
  {
  }

  lemma CodeFollows(d: seq<byte>, pre: seq<byte>, u: seq<byte>, long: bool, after: seq<byte>)
    requires |pre| >= 3 && pre[|pre| - 1] == 1 && CodeFree(u)
    requires d == pre + u + (Code(long) + after)
    ensures UnitThenCode(d, |pre|, u, long, |pre| + |u| + |Code(long)| - 1)
  {
    var rest := Code(long) + after;
    CodeZeros(long, after, rest);
    NoCodeWithin(d, pre, u, |Code(long)| - 1, rest);
    CodeAt(d, pre, u, long, after);
  }

  lemma NextUnit(d: seq<byte>, start: nat, u: seq<byte>, long: bool, e: nat)
    requires UnitThenCode(d, start, u, long, e) && StartOk(d, e + 1)
    requires CutsIn(d, Cuts(d, start, start)) && CutsIn(d, Cuts(d, e + 1, e + 1))
    ensures Slices(d, Cuts(d, start, start)) == [BeforeCode(u, long)] + Slices(d, Cuts(d, e + 1, e + 1))
  {
    CutsSkip(d, start, e, start);
    CutsAt(d, e, start);
    var cs := Cuts(d, start, start);
    assert cs[0] == Cut(start, UnitEnd(d, start, e)) && cs[1..] == Cuts(d, e + 1, e + 1);
  }

  lemma CodeAt(d: seq<byte>, pre: seq<byte>, u: seq<byte>, long: bool, after: seq<byte>)
    requires |pre| >= 3 && pre[|pre| - 1] == 1
    requires d == pre + u + (Code(long) + after)
    ensures var e := |pre| + |u| + |Code(long)| - 1;
            && EndsCode(d, e) && StartOk(d, |pre|)
            && d[|pre|..UnitEnd(d, |pre|, e)] == BeforeCode(u, long)
  {
    var code := Code(long);
    var b := |pre| + |u|;
    assert forall k :: 0 <= k < |code| ==> d[b + k] == code[k];
    assert forall k :: 0 <= k < |u| ==> d[|pre| + k] == u[k];
    var e := b + |code| - 1;
    assert d[|pre| - 1] == 1;
    if !long {
      assert d[e - 3] == if u == [] then 1 else u[|u| - 1];
    }
  }

  /** Splitting code-free units joined by any mix of start codes gives the trimmed units. */
  lemma SplitOfStream(units: seq<seq<byte>>, longs: seq<bool>)
    requires |units| == |longs| && forall k :: 0 <= k < |units| ==> CodeFree(units[k])
    ensures Split(Stream(units, longs)) == Trimmed(units, longs)
  {
    if units != [] {
      SplitsToTrimmed(Stream(units, longs), Code(longs[0]), units, longs);
    } else {
      assert Cuts([], 0, 0) == [];
    }
  }

  lemma GroupRight(a: seq<byte>, b: seq<byte>, c: seq<byte>)
    ensures a + b + c == a + (b + c)
  {
  }

  lemma SplitsToTrimmed(d: seq<byte>, code: seq<byte>, units: seq<seq<byte>>, longs: seq<bool>)
    requires |units| == |longs| > 0 && d == Stream(units, longs) && code == Code(longs[0])
    requires forall k :: 0 <= k < |units| ==> CodeFree(units[k])
    ensures Split(d) == Trimmed(units, longs)
  {
    GroupRight(code, units[0], Stream(units[1..], longs[1..]));
    FirstCode(d, longs[0], units[0] + Stream(units[1..], longs[1..]));
    CutsOfStream(d, code, units, longs);
  }

  lemma FirstCode(d: seq<byte>, long: bool, rest: seq<byte>)
    requires d == Code(long) + rest
    ensures StartOk(d, |Code(long)|) && Split(d) == SplitFrom(d, |Code(long)|, |Code(long)|)
  {
    var code := Code(long);
    assert forall k :: 0 <= k < |code| ==> d[k] == code[k];
    CutsSkip(d, 0, |code| - 1, 0);
    SplitStep(d, |code| - 1, 0);
    assert [] + SplitFrom(d, |code|, |code|) == SplitFrom(d, |code|, |code|);
  }

  /** Nothing is trimmed: no zero at the end of a unit before a three-byte start code, and no empty
      unit at the end. */
  ghost predicate Untrimmed(units: seq<seq<byte>>, longs: seq<bool>)
    requires |units| == |longs|
  {
    && (forall k :: 0 <= k < |units| - 1 && !longs[k + 1] ==> units[k] == [] || units[k][|units[k]| - 1] != 0)
    && (units == [] || units[|units| - 1] != [])
  }

  lemma UntrimmedCons(units: seq<seq<byte>>, longs: seq<bool>)
    requires |units| == |longs| > 1
    ensures Untrimmed(units, longs)
       <==> (longs[1] || units[0] == [] || units[0][|units[0]| - 1] != 0) && Untrimmed(units[1..], longs[1..])
  {
    var us, ls := units[1..], longs[1..];
    assert us[|us| - 1] == units[|units| - 1];
    assert forall k :: 0 <= k < |us| - 1 ==> us[k] == units[k + 1] && ls[k + 1] == longs[k + 2];
    assert forall k :: 1 <= k < |units| - 1 ==> units[k] == us[k - 1] && longs[k + 1] == ls[k];
  }

  lemma {:induction false} TrimmedSame(units: seq<seq<byte>>, longs: seq<bool>)
    requires |units| == |longs|
    ensures Trimmed(units, longs) == units <==> Untrimmed(units, longs)
    decreases |units|
  {
    if |units| > 1 {
      TrimmedSame(units[1..], longs[1..]);
      UntrimmedCons(units, longs);
      var t := Trimmed(units, longs);
      assert t == [t[0]] + Trimmed(units[1..], longs[1..]);
      SameCons(t, units);
    }
  }

  lemma SameCons(s: seq<seq<byte>>, t: seq<seq<byte>>)
    requires s != [] && t != []
    ensures s == t <==> s[0] == t[0] && s[1..] == t[1..]
  {
    assert s == [s[0]] + s[1..] && t == [t[0]] + t[1..];
  }

  /** The round trip: units, each behind a start code of either length, are given back by the split
      if and only if no unit contains a start code and nothing is trimmed. */
  lemma AnnexBRoundTrip(units: seq<seq<byte>>, longs: seq<bool>)
    requires |units| == |longs|
    ensures Split(Stream(units, longs)) == units
       <==> (forall k :: 0 <= k < |units| ==> CodeFree(units[k])) && Untrimmed(units, longs)
  {
    var d := Stream(units, longs);
    if forall k :: 0 <= k < |units| ==> CodeFree(units[k]) {
      SplitOfStream(units, longs);
      TrimmedSame(units, longs);
    } else {
      CutsAreCodeFree(d, 0, 0);
      SlicesAt(d, Cuts(d, 0, 0));
    }
  }
}
