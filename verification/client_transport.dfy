/** The handler of the client's data connections: once TLS is up it authenticates with the token
    followed by the control session's id, and afterwards relays to its paired target connection. */
module ClientTransport {
  import opened Base
  import opened Codec
  import opened Constants
  import opened Channels
  import opened Client
  import opened BackendIdentifier

  /** The authentication of a data connection: the token, then the session id as a long. */
  function AuthFrame(password: seq<byte>, id: int): (f: seq<byte>)
    requires IsLong(id)
    ensures |f| == |password| + 8 && f[..|password|] == password && ReadLong(f[|password|..]) == id
  {
    ReadWriteLong(id);
    var f := password + WriteLong(id);
    assert f[..|password|] == password && f[|password|..] == WriteLong(id);
    f
  }

  /** The server reads the client's authentication as a data connection of the session whose id
      the client holds, and the bare token the control connection sends as a new control session. */
  lemma AuthFrameIsDataConnection(password: seq<byte>, id: int)
    requires |password| == PASSWORD_BYTES && IsLong(id)
    ensures Classify(Buf(AuthFrame(password, id)), password) == DataConnection(id)
    ensures Classify(Buf(password), password) == ControlConnection
  {
    var f := AuthFrame(password, id);
    assert f[..PASSWORD_BYTES] == password && f[PASSWORD_BYTES..] == f[|password|..];
    TokenIsControl(password);
  }

  /** A server with another token rejects the client's authentication. */
  lemma AuthFrameWrongTokenRejected(password: seq<byte>, serverPassword: seq<byte>, id: int)
    requires |password| == PASSWORD_BYTES && |serverPassword| == PASSWORD_BYTES && IsLong(id)
    requires password != serverPassword
    ensures Classify(Buf(AuthFrame(password, id)), serverPassword) == Reject
  {
    var f := AuthFrame(password, id);
    assert f[..PASSWORD_BYTES] == password;
  }

  class ClientTransportHandler {
    const client: Client

    constructor (client: Client)
      ensures this.client == client
    {
      this.client := client;
    }

    /** The handshake listener `handlerAdded` installs: on success write the token followed by the
        control channel's session id, which throws NullPointerException when there is no control
        channel or its id attribute holds no value; reading the attribute through `attr(ATTR_ID)`
        creates it on a control channel that had none. On failure the future holds no channel, so the listener
        throws NullPointerException on its first use, before the close is reached. */
    method HandshakeComplete(net: Net, ch: ChannelId, ok: bool) returns (r: Outcome)
      modifies net
      ensures !ok ==> r == Threw(NullPointer) && net.State() == old(net.State())
      ensures ok && client.control.None? ==> r == Threw(NullPointer) && net.State() == old(net.State())
      ensures ok && client.control.Some? ==>
                var c := client.control.value;
                && (c !in old(net.ids) || old(net.ids)[c].None? ==>
                      r == Threw(NullPointer) && net.State() == old(net.State()).(ids := old(net.ids)[c := None]))
                && (c in old(net.ids) && old(net.ids)[c].Some? ==>
                      && r == Done
                      && net.State() == old(net.State()).(
                           writes := old(net.writes) + [Frame(ch, Buf(AuthFrame(client.password, old(net.ids)[c].value)))]))
    {
      if !ok {
        return Threw(NullPointer);
      }
      if client.control.None? {
        return Threw(NullPointer);
      }
      var c := client.control.value;
      if c !in net.ids || net.ids[c].None? {
        net.ids := net.ids[c := None];
        return Threw(NullPointer);
      }
      net.writes := net.writes + [Frame(ch, Buf(AuthFrame(client.password, net.ids[c].value)))];
      r := Done;
    }

    /** `channelRead`: before pairing a read throws IllegalStateException; after it the message
        goes unchanged to the target, and this leg reads again once that write completes. */
    method ChannelRead(net: Net, ch: ChannelId, msg: Msg) returns (r: Outcome)
      modifies net
      ensures ch !in old(net.pair) ==> r == Threw(IllegalState) && net.State() == old(net.State())
      ensures ch in old(net.pair) ==>
                var next := After(old(net.pair), old(net.readPending), old(net.writePending), Deliver(ch));
                && r == Done
                && net.State() == old(net.State()).(writes := old(net.writes) + [Frame(old(net.pair)[ch], msg)],
                                                    readPending := next.0, writePending := next.1)
      ensures old(net.Valid()) ==> net.Valid()
    {
      r := net.Relay(ch, msg);
    }
  }
}
