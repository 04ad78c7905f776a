/** The server's table of waiting frontend channels: an ArrayList in which a free slot
    holds `null`. A slot's index is the id the client quotes back to claim it. */
module Slots {
  import opened Base

  type Slots = seq<Option<ChannelId>>

  /** Where `incomingChannel` put a channel, and the table afterwards. */
  datatype Placement = Placement(slots: Slots, slot: nat)

  /** No channel occupies two slots. */
  ghost predicate Distinct(s: Slots)
  {
    forall i, j :: 0 <= i < j < |s| && s[i].Some? ==> s[i] != s[j]
  }

  /** `ArrayList.indexOf(null)`: the lowest free index, or -1 when every slot is taken. */
  function IndexOfNull(s: Slots): (k: int)
    ensures -1 <= k < |s|
    ensures k == -1 <==> None !in s
    ensures k >= 0 ==> s[k] == None && forall j :: 0 <= j < k ==> s[j].Some?
  {
    if s == [] then -1
    else if s[0] == None then 0
    else
      var k := IndexOfNull(s[1..]);
      if k == -1 then -1 else k + 1
  }

  /** The placement of `incomingChannel` without its trailing second `add`: the channel takes
      the lowest free slot, or a new slot at the end when none is free. */
  function Place(s: Slots, ch: ChannelId): (p: Placement)
  {
    var k := IndexOfNull(s);
    if k == -1 then Placement(s + [Some(ch)], |s|) else Placement(s[k := Some(ch)], k)
  }

  /** The placement of `incomingChannel` as written: after storing the channel and sending
      INCOMING it appends the channel to the list once more. */
  function PlaceAsWritten(s: Slots, ch: ChannelId): (p: Placement)
  {
    var q := Place(s, ch);
    Placement(q.slots + [Some(ch)], q.slot)
  }

  /** `Place` stores the channel at the lowest free index, or at the old size if none is free,
      and leaves every other slot as it was. */
  lemma PlaceLowestFree(s: Slots, ch: ChannelId)
    ensures var p := Place(s, ch);
      && p.slot < |p.slots| && p.slots[p.slot] == Some(ch)
      && (None in s ==> |p.slots| == |s| && s[p.slot] == None && forall j :: 0 <= j < p.slot ==> s[j].Some?)
      && (None !in s ==> |p.slots| == |s| + 1 && p.slot == |s|)
      && forall j :: 0 <= j < |s| && j != p.slot ==> p.slots[j] == s[j]
  {
  }

  /** Placing a channel that is not yet waiting keeps every channel in at most one slot. */
  lemma PlaceKeepsDistinct(s: Slots, ch: ChannelId)
    requires Distinct(s) && Some(ch) !in s
    ensures Distinct(Place(s, ch).slots)
  {
    var p := Place(s, ch);
    forall i, j | 0 <= i < j < |p.slots| && p.slots[i].Some?
      ensures p.slots[i] != p.slots[j]
    {
      if i != p.slot && j != p.slot {
        assert p.slots[i] == s[i] && p.slots[j] == s[j];
      } else if i == p.slot {
        assert j < |s| ==> p.slots[j] == s[j];
      } else {
        assert p.slots[i] == s[i];
      }
    }
  }

  /** As written, the first channel to arrive at an empty table occupies slot 0 and slot 1, so
      the table no longer has each channel in at most one slot. */
  lemma AsWrittenDuplicates(ch: ChannelId)
    ensures PlaceAsWritten([], ch) == Placement([Some(ch), Some(ch)], 0)
    ensures !Distinct(PlaceAsWritten([], ch).slots)
  {
    var p := PlaceAsWritten([], ch);
    assert p.slots[0] == p.slots[1];
  }

  /** `waitingChannels.set(id, null)`: free a slot, returning its former occupant. */
  function Free(s: Slots, id: nat): (r: (Slots, Option<ChannelId>))
    requires id < |s|
    ensures |r.0| == |s| && r.0[id] == None && r.1 == s[id]
    ensures forall j :: 0 <= j < |s| && j != id ==> r.0[j] == s[j]
  {
    (s[id := None], s[id])
  }

  /** Freeing keeps every channel in at most one slot, and the freed channel no longer waits. */
  lemma FreeKeepsDistinct(s: Slots, id: nat)
    requires id < |s| && Distinct(s)
    ensures Distinct(Free(s, id).0)
    ensures s[id].Some? ==> s[id] !in Free(s, id).0
  {
  }

  /** A freed slot is reused: the next channel goes to that slot or to a lower free one. */
  lemma FreedSlotReused(s: Slots, id: nat, ch: ChannelId)
    requires id < |s|
    ensures Place(Free(s, id).0, ch).slot <= id
  {
    var t := Free(s, id).0;
    assert t[id] == None;
  }

  /** As written, the duplicate outlives the claim: once the client claims the announced slot 0
      of the first channel, the table still holds that channel, now in slot 1. Every frontend
      connection leaves such an entry behind, so the table only grows. */
  lemma AsWrittenKeepsClaimedChannel(ch: ChannelId)
    ensures var p := PlaceAsWritten([], ch);
      && p.slot == 0
      && Free(p.slots, p.slot).1 == Some(ch)
      && Free(p.slots, p.slot).0 == [None, Some(ch)]
  {
    AsWrittenDuplicates(ch);
  }

  /** Without the second `add`, claiming the slot a channel was announced at removes that channel
      from the table. */
  lemma ClaimedChannelLeaves(s: Slots, ch: ChannelId)
    requires Distinct(s) && Some(ch) !in s
    ensures var p := Place(s, ch);
      && Free(p.slots, p.slot).1 == Some(ch)
      && Some(ch) !in Free(p.slots, p.slot).0
  {
    PlaceLowestFree(s, ch);
    PlaceKeepsDistinct(s, ch);
    FreeKeepsDistinct(Place(s, ch).slots, Place(s, ch).slot);
  }

  /** With each channel in at most one slot, claiming two different slots one after the other
      never hands out the same channel twice. */
  lemma DistinctPairsOnce(s: Slots, i: nat, j: nat)
    requires Distinct(s) && i < |s| && j < |s| && i != j && s[i].Some?
    ensures Free(Free(s, i).0, j).1 != s[i]
  {
    if i < j { assert s[i] != s[j]; } else if s[j].Some? { assert s[j] != s[i]; }
  }
}
