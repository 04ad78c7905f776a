/** The handler of the client's control connection: once TLS is up it authenticates with the bare
    token and re-announces every recorded forward; it then takes the session id from the first
    message and treats every later one as a connection request. */
module ClientControl {
  import opened Base
  import opened Codec
  import opened Constants
  import opened Channels
  import opened Client

  /** The OPEN frames for the given ports, in that order, on one channel. */
  function OpenFrames(ch: ChannelId, ports: seq<int>): (fs: seq<Frame>)
    ensures |fs| == |ports|
    ensures forall i :: 0 <= i < |ports| ==> fs[i] == Frame(ch, Buf(OpenFrame(ports[i])))
  {
    if ports == [] then []
    else OpenFrames(ch, ports[..|ports| - 1]) + [Frame(ch, Buf(OpenFrame(ports[|ports| - 1])))]
  }

  /** No port is listed twice. */
  predicate NoDuplicates(ports: seq<int>)
  {
    forall i, j :: 0 <= i < j < |ports| ==> ports[i] != ports[j]
  }

  /** A connection request as the client reads it: the 8-byte id, then the unsigned 2-byte port. */
  function DecodeRequest(d: seq<byte>): (r: Result<(int, int)>)
    ensures r.Ok? <==> |d| >= 10
    ensures r.Ok? ==> IsLong(r.value.0) && 0 <= r.value.1 < TWO_16
    ensures r.Failed? ==> r.error == IndexOutOfBounds
  {
    if |d| < 10 then Failed(IndexOutOfBounds) else Ok((ReadLong(d[..8]), ReadUnsignedShort(d[8..10])))
  }

  /** A request laid out as the client expects it is read back as its id and its port's low 16 bits,
      whatever follows. */
  lemma DecodeRequestOf(id: int, port: int, rest: seq<byte>)
    requires IsLong(id)
    ensures DecodeRequest(WriteLong(id) + WriteShort(port) + rest) == Ok((id, port % TWO_16))
  {
    var d := WriteLong(id) + WriteShort(port) + rest;
    assert d[..8] == WriteLong(id) && d[8..10] == WriteShort(port);
    ReadWriteLong(id);
    ReadWriteShort(port);
  }

  lemma HasElement(s: set<int>)
    requires s != {}
    ensures exists p :: p in s
  {
    if forall p :: p !in s {
      assert false;
    }
  }

  /** The `forEach` over the forward table: one OPEN per port, in an order the table chooses. */
  method WriteOpenFrames(net: Net, ch: ChannelId, ports: set<int>) returns (order: seq<int>)
    modifies net
    ensures NoDuplicates(order) && forall p :: p in order <==> p in ports
    ensures net.State() == old(net.State()).(writes := old(net.writes) + OpenFrames(ch, order))
  {
    order := [];
    var remaining := ports;
    while remaining != {}
      invariant remaining <= ports
      invariant forall p :: p in order <==> p in ports && p !in remaining
      invariant NoDuplicates(order)
      invariant net.State() == old(net.State()).(writes := old(net.writes) + OpenFrames(ch, order))
      decreases remaining
    {
      HasElement(remaining);
      var p :| p in remaining;
      net.writes := net.writes + [Frame(ch, Buf(OpenFrame(p)))];
      assert (order + [p])[..|order|] == order;
      order := order + [p];
      remaining := remaining - {p};
    }
  }

  class ClientControlHandler {
    const client: Client

    constructor (client: Client)
      ensures this.client == client
    {
      this.client := client;
    }

    /** `userEventTriggered`: on a successful TLS handshake the first write is the bare token, then
        one OPEN per recorded forward, in the table's iteration order (returned as `order`); on a
        failed handshake nothing is written. The event is then passed on. A stopped client, with
        no table, throws NullPointerException after the token is written. */
    method UserEventTriggered(net: Net, ch: ChannelId, evt: Event) returns (r: Outcome, order: seq<int>)
      modifies net
      ensures evt != HandshakeSuccess ==>
                r == Done && order == [] && net.State() == old(net.State()).(fired := old(net.fired) + [Fired(ch, evt)])
      ensures evt == HandshakeSuccess && client.targets.None? ==>
                r == Threw(NullPointer) && order == []
                && net.State() == old(net.State()).(writes := old(net.writes) + [Frame(ch, Buf(client.password))])
      ensures evt == HandshakeSuccess && client.targets.Some? ==>
                && r == Done
                && NoDuplicates(order) && (forall p :: p in order <==> p in client.targets.value)
                && net.State() == old(net.State()).(
                     writes := old(net.writes) + [Frame(ch, Buf(client.password))] + OpenFrames(ch, order),
                     fired := old(net.fired) + [Fired(ch, evt)])
    {
      order := [];
      if evt == HandshakeSuccess {
        net.writes := net.writes + [Frame(ch, Buf(client.password))];
        if client.targets.None? {
          return Threw(NullPointer), [];
        }
        order := WriteOpenFrames(net, ch, client.targets.value.Keys);
      }
      net.fired := net.fired + [Fired(ch, evt)];
      r := Done;
    }

    /** `channelRead`: anything but a buffer throws IllegalArgumentException. While the channel has
        no session id attribute the first 8 bytes become its value; once the attribute exists it
        is never replaced, and each message is a connection request handed to the client. The
        attribute is created by `attr(ATTR_ID)` before the 8 bytes are read, so a first message
        shorter than 8 bytes throws IndexOutOfBoundsException yet leaves the attribute behind
        with no value: every later message is then taken for a connection request. */
    method ChannelRead(net: Net, ch: ChannelId, msg: Msg, dialOk: bool, target: ChannelId, backend: ChannelId)
      returns (r: Outcome)
      requires client.Valid()
      modifies net, client
      ensures client.Valid()
      ensures client.targets == old(client.targets) && client.control == old(client.control)
      ensures old(net.Valid()) && target != backend && target !in old(net.pair) && backend !in old(net.pair) ==> net.Valid()
      ensures msg.Obj? ==>
                && r == Threw(IllegalArgument) && net.State() == old(net.State())
                && client.dialed == old(client.dialed) && client.channels == old(client.channels)
      ensures msg.Buf? && ch !in old(net.ids) ==>
                && client.dialed == old(client.dialed) && client.channels == old(client.channels)
                && (|msg.data| < 8 ==>
                      r == Threw(IndexOutOfBounds) && net.State() == old(net.State()).(ids := old(net.ids)[ch := None]))
                && (|msg.data| >= 8 ==>
                      r == Done && net.State() == old(net.State()).(ids := old(net.ids)[ch := Some(ReadLong(msg.data[..8]))]))
      ensures msg.Buf? ==> ch in net.ids
      ensures msg.Buf? && ch in old(net.ids) ==>
                && net.ids == old(net.ids)
                && (DecodeRequest(msg.data).Failed? ==>
                      && r == Threw(IndexOutOfBounds) && net.State() == old(net.State())
                      && client.dialed == old(client.dialed) && client.channels == old(client.channels))
                && (DecodeRequest(msg.data).Ok? ==>
                      var (id, port) := DecodeRequest(msg.data).value;
                      && (old(client.targets).Some? && port in old(client.targets).value ==>
                            && r == Done && client.dialed == old(client.dialed) + [old(client.targets).value[port]]
                            && (!dialOk ==> client.channels == old(client.channels) && net.State() == old(net.State()))
                            && (dialOk ==>
                                  && client.channels == Some(old(client.channels).value + {target, backend})
                                  && net.State() == old(net.State()).(
                                       writes := old(net.writes) + [Frame(backend, Buf(WriteLong(id)))],
                                       pair := old(net.pair)[target := backend][backend := target],
                                       bound := old(net.bound) + {target, backend},
                                       readLog := old(net.readLog) + [target, backend],
                                       readPending := old(net.readPending) + {target, backend})))
                      && (old(client.targets).Some? && port !in old(client.targets).value ==>
                            && r == Threw(IllegalArgument) && net.State() == old(net.State())
                            && client.dialed == old(client.dialed) && client.channels == old(client.channels))
                      && (old(client.targets).None? ==>
                            && r == Threw(NullPointer) && net.State() == old(net.State())
                            && client.dialed == old(client.dialed) && client.channels == old(client.channels)))
    {
      if msg.Obj? {
        return Threw(IllegalArgument);
      }
      var d := msg.data;
      if ch in net.ids {
        var request := DecodeRequest(d);
        if request.Failed? {
          return Threw(request.error);
        }
        r := client.HandleConnectionRequest(net, request.value.0, request.value.1, dialOk, target, backend);
      } else {
        net.ids := net.ids[ch := None];
        if |d| < 8 {
          return Threw(IndexOutOfBounds);
        }
        net.ids := net.ids[ch := Some(ReadLong(d[..8]))];
        r := Done;
      }
    }
  }
}
