/** The server side of one client's control session: the frames it writes on the control
    channel, the commands it reads there, the listeners it binds per port and the table of
    frontend channels waiting for the client to open a matching backend connection. */
module ServerControl {
  import opened Base
  import opened Codec
  import opened Constants
  import opened Slots
  import opened Channels

  /** HANDSHAKE: the opcode, then the 8-byte session id. */
  function HandshakeFrame(id: int): (f: seq<byte>)
    requires IsLong(id)
    ensures |f| == 9 && f[0] == CONTROL_HANDSHAKE && ReadLong(f[1..]) == id
  {
    ReadWriteLong(id);
    [CONTROL_HANDSHAKE] + WriteLong(id)
  }

  /** RESULT: the opcode, the port as a short, the operation (0 add, 1 remove), then 1 or 0. */
  function ResultFrame(port: int, op: byte, ok: bool): (f: seq<byte>)
    ensures |f| == 5 && f[0] == CONTROL_RESULT && f[3] == op && f[4] == (if ok then 1 else 0)
    ensures ReadUnsignedShort(f[1..3]) == port % TWO_16
  {
    ReadWriteShort(port);
    [CONTROL_RESULT] + WriteShort(port) + [op, if ok then 1 else 0]
  }

  /** INCOMING: the opcode, the slot id as a long, the listener's local port as a short, then the
      encoded remote address (`writeAddress` is not part of this model; its bytes are given). */
  function IncomingFrame(slot: int, port: int, addr: seq<byte>): (f: seq<byte>)
    requires IsLong(slot)
    ensures |f| == 11 + |addr| && f[0] == CONTROL_INCOMING
    ensures ReadLong(f[1..9]) == slot && ReadUnsignedShort(f[9..11]) == port % TWO_16 && f[11..] == addr
  {
    ReadWriteLong(slot);
    ReadWriteShort(port);
    var f := [CONTROL_INCOMING] + WriteLong(slot) + WriteShort(port) + addr;
    assert f[1..9] == WriteLong(slot) && f[9..11] == WriteShort(port);
    f
  }

  /** A command read from the control channel. */
  datatype ControlCommand = AddPort(port: int) | RemovePort(port: int)

  /** How `channelRead` reads a message: an unsigned opcode byte, then an unsigned short port.
      Trailing bytes are ignored. */
  function DecodeCommand(msg: Msg): (c: Result<ControlCommand>)
    ensures c.Ok? ==> 0 <= c.value.port < TWO_16
  {
    match msg
    case Obj(_) => Failed(IllegalArgument)
    case Buf(d) =>
      if |d| < 1 then Failed(IndexOutOfBounds)
      else if d[0] != CONTROL_ADD && d[0] != CONTROL_REMOVE then Failed(IllegalArgument)
      else if |d| < 3 then Failed(IndexOutOfBounds)
      else if d[0] == CONTROL_ADD then Ok(AddPort(ReadUnsignedShort(d[1..3])))
      else Ok(RemovePort(ReadUnsignedShort(d[1..3])))
  }

  /** The 3-byte message a peer sends for a command. */
  function EncodeCommand(c: ControlCommand): (f: seq<byte>)
    ensures |f| == 3
  {
    match c
    case AddPort(port) => [CONTROL_ADD] + WriteShort(port)
    case RemovePort(port) => [CONTROL_REMOVE] + WriteShort(port)
  }

  /** Every command with a port in range is read back as itself. */
  lemma DecodeEncodeCommand(c: ControlCommand)
    requires 0 <= c.port < TWO_16
    ensures DecodeCommand(Buf(EncodeCommand(c))) == Ok(c)
  {
    ReadWriteShort(c.port);
    var f := EncodeCommand(c);
    assert f[1..3] == WriteShort(c.port);
  }

  /** Only opcodes ADD and REMOVE are accepted; any other opcode throws IllegalArgumentException. */
  lemma UnknownOpcodeRejected(d: seq<byte>)
    requires |d| >= 1 && d[0] != CONTROL_ADD && d[0] != CONTROL_REMOVE
    ensures DecodeCommand(Buf(d)) == Failed(IllegalArgument)
  {
  }

  /** The members of the server that the handlers use: its password and its registry of
      control sessions by session id. */
  class Server {
    const password: seq<byte>
    var sessions: map<int, ServerControlHandler>

    constructor (password: seq<byte>)
      requires |password| == PASSWORD_BYTES
      ensures this.password == password && sessions == map[]
    {
      this.password := password;
      sessions := map[];
    }
  }

  /** What occupies the "handle" position of a backend channel's pipeline. */
  datatype Handle = Identify | Control(session: ServerControlHandler) | BackendTransport(session: ServerControlHandler)

  /** The "handle" handler of every accepted backend channel. */
  class Pipelines {
    var handle: map<ChannelId, Handle>

    constructor ()
      ensures handle == map[]
    {
      handle := map[];
    }
  }

  /** The `added` flag Netty keeps on a handler that is not @Sharable: set when the handler
      joins a pipeline and never cleared. Adding or substituting the same instance into a
      pipeline once more throws ChannelPipelineException before the pipeline is touched. */
  class AddedMark {
    var added: bool

    constructor ()
      ensures !added
    {
      added := false;
    }
  }

  class ServerControlHandler {
    const server: Server
    const transportHandler: AddedMark              // the session's one ServerBackendTransportHandler
    var channel: Option<ChannelId>                 // the control channel, set once
    var id: int                                    // the session id
    var waiting: Option<Slots>                     // waitingChannels
    var allChannels: Option<set<ChannelId>>        // the listeners, closed together
    var bound: Option<map<int, ChannelId>>         // port -> listener

    /** The fields are null before `handlerAdded`; after `handlerRemoved` the waiting table and
        the channel group are null again while the port map stays. */
    ghost predicate Valid()
      reads this
    {
      && (channel.None? ==> waiting.None? && allChannels.None? && bound.None?)
      && (channel.Some? ==> bound.Some? && (waiting.Some? <==> allChannels.Some?))
      && IsLong(id)
      && (waiting.Some? ==> |waiting.value| < TWO_31)
    }

    /** Between `handlerAdded` and `handlerRemoved`. */
    ghost predicate Active()
      reads this
    {
      channel.Some? && waiting.Some? && allChannels.Some? && bound.Some?
    }

    constructor (server: Server)
      ensures Valid() && this.server == server
      ensures channel == None && waiting == None && allChannels == None && bound == None
      ensures fresh(transportHandler) && !transportHandler.added
    {
      this.server := server;
      transportHandler := new AddedMark();
      channel, id := None, 0;
      waiting, allChannels, bound := None, None, None;
    }

    /** `handlerAdded`: the first call takes the control channel, registers the session under
        the id the server drew and sends HANDSHAKE as the channel's first frame; a second call
        throws IllegalStateException and changes nothing. */
    method HandlerAdded(net: Net, ctx: ChannelId, sessionId: int) returns (r: Outcome)
      requires Valid()
      requires IsLong(sessionId) && sessionId !in server.sessions
      modifies this, server, net
      ensures Valid()
      ensures old(channel).Some? ==>
                && r == Threw(IllegalState)
                && channel == old(channel) && id == old(id) && waiting == old(waiting)
                && allChannels == old(allChannels) && bound == old(bound)
                && server.sessions == old(server.sessions) && net.State() == old(net.State())
      ensures old(channel).None? ==>
                && r == Done && Active()
                && channel == Some(ctx) && id == sessionId
                && waiting == Some([]) && allChannels == Some({}) && bound == Some(map[])
                && server.sessions == old(server.sessions)[sessionId := this]
                && net.State() == old(net.State()).(writes := old(net.writes) + [Frame(ctx, Buf(HandshakeFrame(sessionId)))])
    {
      if channel.Some? {
        return Threw(IllegalState);
      }
      channel := Some(ctx);
      id := sessionId;
      server.sessions := server.sessions[sessionId := this];
      waiting := Some([]);
      allChannels := Some({});
      bound := Some(map[]);
      net.writes := net.writes + [Frame(ctx, Buf(HandshakeFrame(sessionId)))];
      r := Done;
    }

    /** `handlerRemoved`: close every listener and drop the channel group and the waiting table.
        The waiting frontend channels themselves are not closed, and the port map is kept. */
    method HandlerRemoved(net: Net) returns (r: Outcome)
      requires Valid()
      modifies this, net
      ensures Valid()
      ensures channel == old(channel) && id == old(id) && bound == old(bound)
      ensures old(allChannels).None? ==>
                r == Threw(NullPointer) && waiting == old(waiting) && allChannels == None
                && net.State() == old(net.State())
      ensures old(allChannels).Some? ==>
                && r == Done && waiting == None && allChannels == None
                && net.State() == old(net.State()).(closed := old(net.closed) + old(allChannels).value)
    {
      if allChannels.None? {
        return Threw(NullPointer);
      }
      net.closed := net.closed + allChannels.value;
      allChannels := None;
      waiting := None;
      r := Done;
    }

    /** `channelRead`: ADD binds a listener, records it under the port whatever the bind outcome
        and replies RESULT(port, 0, bound?); an ADD for a port already recorded still replies but
        then throws IllegalStateException, keeping the old entry. REMOVE closes and forgets the
        port's listener and replies RESULT(port, 1, 1), or replies RESULT(port, 1, 0) when there
        is none. A malformed message or unknown opcode throws and changes nothing. */
    method ChannelRead(net: Net, msg: Msg, bindOk: bool, listener: ChannelId) returns (r: Outcome)
      requires Valid() && Active()
      modifies this, net
      ensures Valid() && Active()
      ensures channel == old(channel) && id == old(id) && waiting == old(waiting)
      ensures DecodeCommand(msg).Failed? ==>
                && r == Threw(DecodeCommand(msg).error)
                && bound == old(bound) && allChannels == old(allChannels) && net.State() == old(net.State())
      ensures DecodeCommand(msg).Ok? && DecodeCommand(msg).value.AddPort? ==>
                var port := DecodeCommand(msg).value.port;
                && net.State() == old(net.State()).(writes := old(net.writes)
                     + [Frame(old(channel).value, Buf(ResultFrame(port, RESULT_OP_ADD, bindOk)))])
                && (port in old(bound).value ==>
                      r == Threw(IllegalState) && bound == old(bound) && allChannels == old(allChannels))
                && (port !in old(bound).value ==>
                      && bound == Some(old(bound).value[port := listener])
                      && (listener in old(allChannels).value ==> r == Threw(IllegalState) && allChannels == old(allChannels))
                      && (listener !in old(allChannels).value ==> r == Done && allChannels == Some(old(allChannels).value + {listener})))
      ensures DecodeCommand(msg).Ok? && DecodeCommand(msg).value.RemovePort? ==>
                var port := DecodeCommand(msg).value.port;
                && r == Done && allChannels == old(allChannels)
                && bound == Some(old(bound).value - {port})
                && (port in old(bound).value ==>
                      net.State() == old(net.State()).(
                        closed := old(net.closed) + {old(bound).value[port]},
                        writes := old(net.writes) + [Frame(old(channel).value, Buf(ResultFrame(port, RESULT_OP_REMOVE, true)))]))
                && (port !in old(bound).value ==>
                      net.State() == old(net.State()).(
                        writes := old(net.writes) + [Frame(old(channel).value, Buf(ResultFrame(port, RESULT_OP_REMOVE, false)))]))
    {
      var command := DecodeCommand(msg);
      if command.Failed? {
        return Threw(command.error);
      }
      var ctl := channel.value;
      match command.value {
        case AddPort(port) =>
          net.writes := net.writes + [Frame(ctl, Buf(ResultFrame(port, RESULT_OP_ADD, bindOk)))];
          if port in bound.value {
            return Threw(IllegalState);
          }
          bound := Some(bound.value[port := listener]);
          if listener in allChannels.value {
            return Threw(IllegalState);
          }
          allChannels := Some(allChannels.value + {listener});
          r := Done;
        case RemovePort(port) =>
          if port in bound.value {
            var toClose := bound.value[port];
            bound := Some(bound.value - {port});
            net.closed := net.closed + {toClose};
            net.writes := net.writes + [Frame(ctl, Buf(ResultFrame(port, RESULT_OP_REMOVE, true)))];
          } else {
            assert bound.value - {port} == bound.value;
            net.writes := net.writes + [Frame(ctl, Buf(ResultFrame(port, RESULT_OP_REMOVE, false)))];
          }
          r := Done;
      }
    }

    /** `backendChannel`: the backend channel's "handle" is replaced by this session's one
        transport handler. That handler is not @Sharable, so only the first replacement
        succeeds: from the session's second data connection on, Netty throws
        ChannelPipelineException and the channel keeps its identifier. */
    method BackendChannel(pipes: Pipelines, ch: ChannelId) returns (r: Outcome)
      modifies pipes, transportHandler
      ensures transportHandler.added
      ensures old(transportHandler.added) ==>
                r == Threw(ChannelPipeline) && pipes.handle == old(pipes.handle)
      ensures !old(transportHandler.added) ==>
                r == Done && pipes.handle == old(pipes.handle)[ch := BackendTransport(this)]
    {
      if transportHandler.added {
        return Threw(ChannelPipeline);
      }
      transportHandler.added := true;
      pipes.handle := pipes.handle[ch := BackendTransport(this)];
      r := Done;
    }

    /** `backendChannel` with a fresh transport handler for every backend channel: the
        replacement always succeeds, however many data connections the session already has. */
    method BackendChannelFreshHandler(pipes: Pipelines, ch: ChannelId) returns (r: Outcome)
      modifies pipes
      ensures r == Done && pipes.handle == old(pipes.handle)[ch := BackendTransport(this)]
    {
      var handler := new AddedMark();
      handler.added := true;
      pipes.handle := pipes.handle[ch := BackendTransport(this)];
      r := Done;
    }

    /** `backendChannelReady`: the slot named by the id (cast to int) is freed and its occupant is
        paired with the backend channel. An id outside the table throws IndexOutOfBoundsException;
        an empty slot throws NullPointerException and pairs nothing. */
    method BackendChannelReady(net: Net, ch: ChannelId, slotId: int) returns (r: Outcome)
      requires Valid() && IsLong(slotId)
      modifies this, net
      ensures Valid()
      ensures channel == old(channel) && id == old(id) && allChannels == old(allChannels) && bound == old(bound)
      ensures old(waiting).None? ==> r == Threw(NullPointer) && waiting == None && net.State() == old(net.State())
      ensures old(waiting).Some? && !(0 <= ToInt(slotId) < |old(waiting).value|) ==>
                r == Threw(IndexOutOfBounds) && waiting == old(waiting) && net.State() == old(net.State())
      ensures old(waiting).Some? && 0 <= ToInt(slotId) < |old(waiting).value| ==>
                var freed := Free(old(waiting).value, ToInt(slotId));
                && waiting == Some(freed.0)
                && (freed.1.None? ==> r == Threw(NullPointer) && net.State() == old(net.State()))
                && (freed.1.Some? ==>
                      && r == Done
                      && net.State() == old(net.State()).(
                           pair := old(net.pair)[ch := freed.1.value][freed.1.value := ch],
                           bound := old(net.bound) + {ch, freed.1.value},
                           readLog := old(net.readLog) + [ch, freed.1.value],
                           readPending := old(net.readPending) + {ch, freed.1.value})
                      && (old(net.Valid()) && ch !in old(net.pair) && freed.1.value !in old(net.pair) && ch != freed.1.value ==>
                            net.Valid()))
      ensures old(net.Valid()) && r.Threw? ==> net.Valid()
    {
      if waiting.None? {
        return Threw(NullPointer);
      }
      var index := ToInt(slotId);
      if !(0 <= index < |waiting.value|) {
        return Threw(IndexOutOfBounds);
      }
      var freed := Free(waiting.value, index);
      waiting := Some(freed.0);
      if freed.1.None? {
        return Threw(NullPointer);
      }
      net.BindChannels(ch, freed.1.value);
      r := Done;
    }

    /** `incomingChannel`, as written: store the new frontend channel at the lowest free slot (or
        a new one at the end), send INCOMING(slot, local port, remote address) on the control
        channel, then append the channel to the table a second time. Store happens before notify,
        so the slot exists when the client's backend claims it. Java's list holds at most
        2^31 - 1 entries: an append beyond that throws OutOfMemoryError, before anything changes
        for the first append and after the store and the INCOMING for the second. */
    method IncomingChannel(net: Net, ch: ChannelId, localPort: int, addr: seq<byte>) returns (r: Outcome)
      requires Valid()
      modifies this, net
      ensures Valid()
      ensures channel == old(channel) && id == old(id) && allChannels == old(allChannels) && bound == old(bound)
      ensures old(waiting).None? ==> r == Threw(NullPointer) && waiting == None && net.State() == old(net.State())
      ensures old(waiting).Some? && None !in old(waiting).value && |old(waiting).value| == TWO_31 - 1 ==>
                r == Threw(OutOfMemory) && waiting == old(waiting) && net.State() == old(net.State())
      ensures old(waiting).Some? && (None in old(waiting).value || |old(waiting).value| < TWO_31 - 1) ==>
                var p := Place(old(waiting).value, ch);
                && net.State() == old(net.State()).(
                     writes := old(net.writes) + [Frame(old(channel).value, Buf(IncomingFrame(p.slot, localPort, addr)))])
                && (|p.slots| == TWO_31 - 1 ==> r == Threw(OutOfMemory) && waiting == Some(p.slots))
                && (|p.slots| < TWO_31 - 1 ==> r == Done && waiting == Some(PlaceAsWritten(old(waiting).value, ch).slots))
      ensures r.Done? ==>
                var p := PlaceAsWritten(old(waiting).value, ch);
                && p.slot < |p.slots| - 1 && p.slots[p.slot] == Some(ch) && p.slots[|p.slots| - 1] == Some(ch)
    {
      if waiting.None? {
        return Threw(NullPointer);
      }
      var k := IndexOfNull(waiting.value);
      if k == -1 && |waiting.value| == TWO_31 - 1 {
        return Threw(OutOfMemory);
      }
      PlaceLowestFree(waiting.value, ch);
      var p := Place(waiting.value, ch);
      waiting := Some(p.slots);
      net.writes := net.writes + [Frame(channel.value, Buf(IncomingFrame(p.slot, localPort, addr)))];
      if |p.slots| == TWO_31 - 1 {
        return Threw(OutOfMemory);
      }
      waiting := Some(p.slots + [Some(ch)]);
      r := Done;
    }

    /** The periodic sweep: close the channels of the group that TIMEOUT_MATCHER, as written,
        matches at `now`. The group calls the matcher channel by channel, so a channel whose idle
        attribute exists but holds no timestamp throws NullPointerException partway: some of the
        matched channels may be closed by then, none of the others. While no idle stamp lies in
        the future nothing is closed. */
    method Sweep(net: Net, now: int) returns (r: Outcome)
      requires Valid()
      modifies net
      ensures old(allChannels).None? ==> r == Threw(NullPointer) && net.State() == old(net.State())
      ensures old(allChannels).Some? ==>
                var matched := set c | c in allChannels.value && TimeoutMatcherAsWritten(old(net.IdleOf(c)), now);
                && net.State() == old(net.State()).(closed := net.closed)
                && old(net.closed) <= net.closed <= old(net.closed) + matched
                && ((exists c :: c in allChannels.value && c in old(net.idle) && old(net.idle)[c].None?) ==>
                      r == Threw(NullPointer))
                && ((forall c :: c in allChannels.value && c in old(net.idle) ==> old(net.idle)[c].Some?) ==>
                      r == Done && net.closed == old(net.closed) + matched)
      ensures (forall c :: c in old(net.idle) && old(net.idle)[c].Some? ==> old(net.idle)[c].value <= now) ==>
                net.closed == old(net.closed)
    {
      if allChannels.None? {
        return Threw(NullPointer);
      }
      var swept := set c | c in allChannels.value && TimeoutMatcherAsWritten(net.IdleOf(c), now);
      if forall c :: c in net.idle && net.idle[c].Some? ==> net.idle[c].value <= now {
        forall c | c in swept
          ensures false
        {
          AsWrittenNeverEvicts(net.idle[c].value, now);
        }
        assert swept == {};
      }
      if exists c :: c in allChannels.value && c in net.idle && net.idle[c].None? {
        return Threw(NullPointer);
      }
      net.closed := net.closed + swept;
      r := Done;
    }
  }

  /** As written, a session pairs at most one data connection: the second backend channel handed
      to `backendChannel` is refused and keeps its identifier. */
  method AsWrittenSecondDataConnectionRefused(server: Server, first: ChannelId, second: ChannelId)
    returns (r1: Outcome, r2: Outcome, handle: map<ChannelId, Handle>)
    requires first != second
    ensures r1 == Done && r2 == Threw(ChannelPipeline)
    ensures first in handle && handle[first].BackendTransport? && second !in handle
  {
    var session := new ServerControlHandler(server);
    var pipes := new Pipelines();
    r1 := session.BackendChannel(pipes, first);
    r2 := session.BackendChannel(pipes, second);
    handle := pipes.handle;
  }

  /** With a fresh transport handler per backend channel, both data connections of a session
      get the session's transport handler. */
  method FreshHandlerTakesEveryDataConnection(server: Server, first: ChannelId, second: ChannelId)
    returns (r1: Outcome, r2: Outcome, handle: map<ChannelId, Handle>)
    ensures r1 == Done && r2 == Done
    ensures first in handle && second in handle && handle[first] == handle[second]
    ensures handle[first].BackendTransport?
  {
    var session := new ServerControlHandler(server);
    var pipes := new Pipelines();
    r1 := session.BackendChannelFreshHandler(pipes, first);
    r2 := session.BackendChannelFreshHandler(pipes, second);
    handle := pipes.handle;
  }
}
