/** The handler of a connection accepted on one of a session's forwarded ports: it waits in the
    session's slot table until a backend connection claims it, then relays. */
module FrontendTransport {
  import opened Base
  import opened Codec
  import opened Slots
  import opened Channels
  import opened ServerControl

  class FrontendTransportHandler {
    const handler: ServerControlHandler

    constructor (handler: ServerControlHandler)
      ensures this.handler == handler
    {
      this.handler := handler;
    }

    /** `channelActive`: the channel enters the slot table, as `incomingChannel` writes it (at
        its announced slot and once more at the end), and INCOMING goes to the client before the
        activation event is passed on; if `incomingChannel` throws, nothing is passed on. */
    method ChannelActive(net: Net, ch: ChannelId, localPort: int, addr: seq<byte>) returns (r: Outcome)
      requires handler.Valid()
      modifies net, handler
      ensures handler.Valid()
      ensures handler.channel == old(handler.channel) && handler.allChannels == old(handler.allChannels)
              && handler.bound == old(handler.bound)
      ensures r.Threw? ==> net.fired == old(net.fired)
      ensures old(handler.waiting).None? ==>
                r == Threw(NullPointer) && handler.waiting == None && net.State() == old(net.State())
      ensures r.Done? ==>
                && old(handler.waiting).Some?
                && var p := PlaceAsWritten(old(handler.waiting).value, ch);
                && handler.waiting == Some(p.slots)
                && p.slots[p.slot] == Some(ch) && p.slots[|p.slots| - 1] == Some(ch) && p.slot != |p.slots| - 1
                && net.State() == old(net.State()).(
                     writes := old(net.writes) + [Frame(old(handler.channel).value, Buf(IncomingFrame(p.slot, localPort, addr)))],
                     fired := old(net.fired) + [Fired(ch, Active)])
      ensures old(handler.waiting).Some? && |old(handler.waiting).value| < TWO_31 - 2 ==> r.Done?
    {
      if handler.waiting.Some? {
        PlaceLowestFree(handler.waiting.value, ch);
      }
      r := handler.IncomingChannel(net, ch, localPort, addr);
      if r.Done? {
        net.fired := net.fired + [Fired(ch, Active)];
      }
    }

    /** `channelRead`: before pairing a read throws IllegalStateException; after it the message
        goes unchanged to the peer, and this leg reads again once that write completes. */
    method ChannelRead(net: Net, ch: ChannelId, msg: Msg) returns (r: Outcome)
      modifies net
      ensures ch !in old(net.pair) ==> r == Threw(IllegalState) && net.State() == old(net.State())
      ensures ch in old(net.pair) ==>
                var next := After(old(net.pair), old(net.readPending), old(net.writePending), Deliver(ch));
                && r == Done
                && net.State() == old(net.State()).(writes := old(net.writes) + [Frame(old(net.pair)[ch], msg)],
                                                    readPending := next.0, writePending := next.1)
                && ch !in net.readPending && ch in net.writePending
      ensures old(net.Valid()) ==> net.Valid()
    {
      r := net.Relay(ch, msg);
    }

    /** `channelUnregistered`: closing a paired leg closes its peer; an unpaired one closes nothing else. */
    method ChannelUnregistered(net: Net, ch: ChannelId)
      modifies net
      ensures net.State() == old(net.State()).(closed := if ch in old(net.pair) then old(net.closed) + {old(net.pair)[ch]}
                                                         else old(net.closed))
      ensures old(net.Valid()) ==> net.Valid()
    {
      net.ClosePeer(ch);
    }
  }
}
