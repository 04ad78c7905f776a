/** The first handler of every connection accepted on the server's backend port: it reads the
    first message and decides whether the connection is a new control session (the bare token)
    or a data connection of an existing session (the token followed by the session id). */
module BackendIdentifier {
  import opened Base
  import opened Codec
  import opened Constants
  import opened Channels
  import opened ServerControl

  datatype Verdict = Reject | ControlConnection | DataConnection(sessionId: int)

  /** The decision `channelRead` takes on a first message: reject anything that is not a buffer,
      whose length is neither the token length nor the token length plus 8, or whose first
      PASSWORD_BYTES bytes differ from the token; otherwise the length tells control from data,
      and a data connection names its session by the big-endian long at offset PASSWORD_BYTES. */
  function Classify(msg: Msg, password: seq<byte>): (v: Verdict)
    requires |password| == PASSWORD_BYTES
    ensures !v.Reject? ==> msg.Buf? && |msg.data| >= PASSWORD_BYTES && msg.data[..PASSWORD_BYTES] == password
    ensures v.ControlConnection? ==> |msg.data| == PASSWORD_BYTES
    ensures v.DataConnection? ==> |msg.data| == PASSWORD_BYTES + 8 && IsLong(v.sessionId)
  {
    match msg
    case Obj(_) => Reject
    case Buf(d) =>
      if |d| != PASSWORD_BYTES && |d| != PASSWORD_BYTES + 8 then Reject
      else if d[..PASSWORD_BYTES] != password then Reject
      else if |d| == PASSWORD_BYTES then ControlConnection
      else DataConnection(ReadLong(d[PASSWORD_BYTES..]))
  }

  /** The bare token opens a control session. */
  lemma TokenIsControl(password: seq<byte>)
    requires |password| == PASSWORD_BYTES
    ensures Classify(Buf(password), password) == ControlConnection
  {
    assert password[..PASSWORD_BYTES] == password;
  }

  /** One wrong byte among the first PASSWORD_BYTES rejects the connection, whatever its length. */
  lemma WrongTokenRejected(d: seq<byte>, password: seq<byte>, i: nat)
    requires |password| == PASSWORD_BYTES && i < PASSWORD_BYTES && i < |d| && d[i] != password[i]
    ensures Classify(Buf(d), password) == Reject
  {
    if |d| >= PASSWORD_BYTES {
      assert d[..PASSWORD_BYTES][i] == d[i];
    }
  }

  /** A message whose length is neither PASSWORD_BYTES nor PASSWORD_BYTES + 8 is rejected. */
  lemma WrongLengthRejected(d: seq<byte>, password: seq<byte>)
    requires |password| == PASSWORD_BYTES && |d| != PASSWORD_BYTES && |d| != PASSWORD_BYTES + 8
    ensures Classify(Buf(d), password) == Reject
  {
  }

  /** The `for` loop of `channelRead`: compare the first PASSWORD_BYTES bytes at absolute
      indices, stopping at the first difference. */
  method TokenMatches(data: seq<byte>, password: seq<byte>) returns (ok: bool)
    requires |data| >= PASSWORD_BYTES && |password| >= PASSWORD_BYTES
    ensures ok <==> data[..PASSWORD_BYTES] == password[..PASSWORD_BYTES]
  {
    var i := 0;
    while i < PASSWORD_BYTES
      invariant 0 <= i <= PASSWORD_BYTES
      invariant data[..i] == password[..i]
    {
      if data[i] != password[i] {
        assert data[..PASSWORD_BYTES][i] != password[..PASSWORD_BYTES][i];
        return false;
      }
      assert data[..i + 1] == data[..i] + [data[i]];
      assert password[..i + 1] == password[..i] + [password[i]];
      i := i + 1;
    }
    return true;
  }

  class BackendChannelIdentifier {
    const server: Server

    constructor (server: Server)
      ensures this.server == server
    {
      this.server := server;
    }

    /** `channelRead` on a backend channel's first message. A rejected message only closes the
        channel: nothing is written back, so the peer cannot tell a bad length from a bad token.
        The token alone installs a new control handler, which registers a session under the id
        the server draws and sends HANDSHAKE. Token plus id hands the channel to that session,
        and throws NullPointerException when no session has that id; the session refuses every
        data connection after its first (see `ServerControlHandler.BackendChannel`). */
    method ChannelRead(net: Net, pipes: Pipelines, ch: ChannelId, msg: Msg, drawnId: int) returns (r: Outcome)
      requires |server.password| == PASSWORD_BYTES
      requires IsLong(drawnId) && drawnId !in server.sessions
      modifies net, pipes, server, set s | s in server.sessions.Values :: s.transportHandler
      ensures Classify(msg, server.password).Reject? ==>
                && r == Done
                && net.State() == old(net.State()).(closed := old(net.closed) + {ch})
                && pipes.handle == old(pipes.handle) && server.sessions == old(server.sessions)
      ensures Classify(msg, server.password).ControlConnection? ==>
                && r == Done
                && ch in pipes.handle && pipes.handle[ch].Control?
                && var session := pipes.handle[ch].session;
                && fresh(session) && session.Valid() && session.Active()
                && session.channel == Some(ch) && session.id == drawnId
                && pipes.handle == old(pipes.handle)[ch := Control(session)]
                && server.sessions == old(server.sessions)[drawnId := session]
                && net.State() == old(net.State()).(writes := old(net.writes) + [Frame(ch, Buf(HandshakeFrame(drawnId)))])
      ensures Classify(msg, server.password).DataConnection? ==>
                var id := Classify(msg, server.password).sessionId;
                && server.sessions == old(server.sessions) && net.State() == old(net.State())
                && (id in old(server.sessions) ==>
                      var session := old(server.sessions)[id];
                      && session.transportHandler.added
                      && (old(session.transportHandler.added) ==>
                            r == Threw(ChannelPipeline) && pipes.handle == old(pipes.handle))
                      && (!old(session.transportHandler.added) ==>
                            r == Done && pipes.handle == old(pipes.handle)[ch := BackendTransport(session)]))
                && (id !in old(server.sessions) ==>
                      r == Threw(NullPointer) && pipes.handle == old(pipes.handle))
    {
      if msg.Obj? {
        net.closed := net.closed + {ch};
        return Done;
      }
      var d := msg.data;
      if |d| != PASSWORD_BYTES && |d| != PASSWORD_BYTES + 8 {
        net.closed := net.closed + {ch};
        return Done;
      }
      var ok := TokenMatches(d, server.password);
      if !ok {
        net.closed := net.closed + {ch};
        return Done;
      }
      if |d| == PASSWORD_BYTES {
        var session := new ServerControlHandler(server);
        pipes.handle := pipes.handle[ch := Control(session)];
        r := session.HandlerAdded(net, ch, drawnId);
      } else {
        var id := ReadLong(d[PASSWORD_BYTES..]);
        if id !in server.sessions {
          return Threw(NullPointer);
        }
        r := server.sessions[id].BackendChannel(pipes, ch);
      }
    }
  }
}
