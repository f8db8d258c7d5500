/** Data channels, and lists of them that hold each once: the outputs of a reader, the inputs of a
    writer. */
module Channels {
  import opened Options

  /** A libdatachannel data channel or media track. `serial` stands for the address of the object,
      `pc` for the peer connection that created it; `id` is the negotiated 16-bit id of a data
      channel, 0 for a track. */
  datatype Channel = Channel(serial: nat, pc: Option<nat>, id: nat)

  /** `dcs` without the first occurrence of `dc`. */
  function Without(dcs: seq<Channel>, dc: Channel): (r: seq<Channel>)
    decreases |dcs|
  {
    if dcs == [] then []
    else if dcs[0] == dc then dcs[1..]
    else [dcs[0]] + Without(dcs[1..], dc)
  }

  ghost predicate Distinct(dcs: seq<Channel>) {
    forall i, j :: 0 <= i < j < |dcs| ==> dcs[i] != dcs[j]
  }

  /** Exactly one occurrence goes; the others keep their order. */
  lemma {:induction false} WithoutSplits(dcs: seq<Channel>, dc: Channel, before: seq<Channel>, after: seq<Channel>)
    requires dcs == before + [dc] + after && dc !in before
    ensures Without(dcs, dc) == before + after
    decreases |before|
  {
    if before == [] {
      assert dcs[1..] == after;
    } else {
      assert dcs[1..] == before[1..] + [dc] + after;
      WithoutSplits(dcs[1..], dc, before[1..], after);
      assert before + after == [before[0]] + (before[1..] + after);
    }
  }

  lemma {:induction false} WithoutKeeps(dcs: seq<Channel>, dc: Channel, other: Channel)
    ensures other != dc ==> (other in Without(dcs, dc) <==> other in dcs)
    ensures other in Without(dcs, dc) ==> other in dcs
    decreases |dcs|
  {
    if dcs != [] {
      WithoutKeeps(dcs[1..], dc, other);
    }
  }

  lemma {:induction false} WithoutDistinct(dcs: seq<Channel>, dc: Channel)
    requires Distinct(dcs)
    ensures Distinct(Without(dcs, dc)) && dc !in Without(dcs, dc)
    decreases |dcs|
  {
    if dcs != [] && dcs[0] != dc {
      WithoutDistinct(dcs[1..], dc);
      WithoutKeeps(dcs[1..], dc, dcs[0]);
    }
  }

  lemma WithoutMembers(dcs: seq<Channel>, dc: Channel)
    requires Distinct(dcs)
    ensures Distinct(Without(dcs, dc))
    ensures forall x :: x in Without(dcs, dc) <==> x in dcs && x != dc
  {
    WithoutDistinct(dcs, dc);
    forall x
      ensures x in Without(dcs, dc) <==> x in dcs && x != dc
    {
      WithoutKeeps(dcs, dc, x);
    }
  }

  lemma {:induction false} AbsentStays(dcs: seq<Channel>, dc: Channel)
    requires dc !in dcs
    ensures Without(dcs, dc) == dcs
    decreases |dcs|
  {
    if dcs != [] {
      AbsentStays(dcs[1..], dc);
    }
  }

  function Entries(m: map<string, Channel>): set<(string, Channel)> {
    set t | t in m :: (t, m[t])
  }

  lemma EntriesAre(m: map<string, Channel>)
    ensures forall t, x :: (t, x) in Entries(m) <==> t in m && m[t] == x
  {
  }
}
