/** The handler of a backend data connection after it has named its session: its first message
    is the slot id of the frontend channel it claims, every later one is relayed to that channel. */
module ServerBackendTransport {
  import opened Base
  import opened Codec
  import opened Slots
  import opened Channels
  import opened ServerControl

  /** A slot id that the server hands out (a non-negative Java `int`) survives the trip through
      the 8-byte slot message and the `(int)` cast of `backendChannelReady`. */
  lemma SlotIdRoundTrip(slot: int)
    requires 0 <= slot < TWO_31
    ensures |WriteLong(slot)| == 8 && ToInt(ReadLong(WriteLong(slot))) == slot
  {
    ReadWriteLong(slot);
  }

  /** Every slot `incomingChannel` reports is one the client's slot message names back exactly. */
  lemma PlacedSlotRoundTrip(s: Slots, ch: ChannelId)
    requires |s| < TWO_31 - 1
    ensures var p := Place(s, ch);
      && 0 <= p.slot < |p.slots| && p.slots[p.slot] == Some(ch)
      && ToInt(ReadLong(WriteLong(p.slot))) == p.slot
  {
    PlaceLowestFree(s, ch);
    SlotIdRoundTrip(Place(s, ch).slot);
  }

  class ServerBackendTransportHandler {
    const control: ServerControlHandler

    constructor (control: ServerControlHandler)
      ensures this.control == control
    {
      this.control := control;
    }

    /** `channelRead`: a paired channel forwards the message unchanged to its peer; an unpaired
        one takes an 8-byte buffer as the slot id it claims (see `BackendChannelReady`), and
        throws IllegalStateException for anything else, touching nothing. */
    method ChannelRead(net: Net, ch: ChannelId, msg: Msg) returns (r: Outcome)
      requires control.Valid()
      modifies net, control
      ensures control.Valid()
      ensures control.channel == old(control.channel) && control.bound == old(control.bound)
              && control.allChannels == old(control.allChannels)
      ensures ch in old(net.pair) ==>
                var next := After(old(net.pair), old(net.readPending), old(net.writePending), Deliver(ch));
                && r == Done
                && net.State() == old(net.State()).(writes := old(net.writes) + [Frame(old(net.pair)[ch], msg)],
                                                    readPending := next.0, writePending := next.1)
                && control.waiting == old(control.waiting)
      ensures ch !in old(net.pair) && !(msg.Buf? && |msg.data| == 8) ==>
                r == Threw(IllegalState) && net.State() == old(net.State()) && control.waiting == old(control.waiting)
      ensures ch !in old(net.pair) && msg.Buf? && |msg.data| == 8 && old(control.waiting).None? ==>
                r == Threw(NullPointer) && net.State() == old(net.State()) && control.waiting == None
      ensures ch !in old(net.pair) && msg.Buf? && |msg.data| == 8 && old(control.waiting).Some?
              && !(0 <= ToInt(ReadLong(msg.data)) < |old(control.waiting).value|) ==>
                r == Threw(IndexOutOfBounds) && net.State() == old(net.State()) && control.waiting == old(control.waiting)
      ensures ch !in old(net.pair) && msg.Buf? && |msg.data| == 8 && old(control.waiting).Some?
              && 0 <= ToInt(ReadLong(msg.data)) < |old(control.waiting).value| ==>
                var freed := Free(old(control.waiting).value, ToInt(ReadLong(msg.data)));
                && control.waiting == Some(freed.0)
                && (freed.1.None? ==> r == Threw(NullPointer) && net.State() == old(net.State()))
                && (freed.1.Some? ==>
                      && r == Done
                      && net.State() == old(net.State()).(
                           pair := old(net.pair)[ch := freed.1.value][freed.1.value := ch],
                           bound := old(net.bound) + {ch, freed.1.value},
                           readLog := old(net.readLog) + [ch, freed.1.value],
                           readPending := old(net.readPending) + {ch, freed.1.value})
                      && (old(net.Valid()) && freed.1.value !in old(net.pair) && ch != freed.1.value ==> net.Valid()))
      ensures old(net.Valid()) && (ch in old(net.pair) || r.Threw?) ==> net.Valid()
    {
      if ch in net.pair {
        net.Forward(ch, msg);
        return Done;
      }
      if !(msg.Buf? && |msg.data| == 8) {
        return Threw(IllegalState);
      }
      r := control.BackendChannelReady(net, ch, ReadLong(msg.data));
    }

    /** `channelUnregistered`: closing a paired leg closes its peer. */
    method ChannelUnregistered(net: Net, ch: ChannelId)
      modifies net
      ensures net.State() == old(net.State()).(closed := if ch in old(net.pair) then old(net.closed) + {old(net.pair)[ch]}
                                                         else old(net.closed))
      ensures old(net.Valid()) ==> net.Valid()
    {
      net.ClosePeer(ch);
    }
  }
}
