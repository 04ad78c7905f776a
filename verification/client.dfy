/** The client endpoint: its lifecycle guards, the console `add` command that records a forward
    and asks the server to open the port, and the connection request that dials a forward's
    target and opens a data connection back to the server for it. */
module Client {
  import opened Base
  import opened Codec
  import opened Constants
  import opened Channels
  import opened AddCommand
  import Endpoint

  /** Where a forwarded port leads. */
  datatype Addr = Addr(host: string, port: int)

  /** OPEN: the command byte, then the source port's low 16 bits. */
  function OpenFrame(port: int): (f: seq<byte>)
    ensures |f| == 3 && f[0] == COMMAND_OPEN && ReadUnsignedShort(f[1..]) == port % TWO_16
  {
    ReadWriteShort(port);
    var f := [COMMAND_OPEN] + WriteShort(port);
    assert f[1..] == WriteShort(port);
    f
  }

  /** A source port above 65535 is sent as its low 16 bits: asking for 65616 opens port 80. */
  lemma OpenFrameTruncatesPort()
    ensures ReadUnsignedShort(OpenFrame(65616)[1..]) == 80
  {
  }

  /** An `add` command never stops the client: the verdict is the default one, for the whole line. */
  lemma AddCommandDoesNotStop(command: string)
    requires ParseAdd(command).Some?
    ensures !Endpoint.HandleCommand(command).stop
    ensures Endpoint.HandleCommand(command).log == ["Unknown command!"] + Endpoint.HELP
  {
    assert command[..4] == "add ";
    assert command[0] == 'a';
  }

  class Client {
    const password: seq<byte>
    var channels: Option<set<ChannelId>>      // the channel group; None while stopped
    var targets: Option<map<int, Addr>>       // targetAddresses; None while stopped
    var control: Option<ChannelId>            // the control channel, once connected
    var dialed: seq<Addr>                     // every connect to a forward's target, in order

    /** The group and the forward table exist together, and the control channel is in the group. */
    ghost predicate Valid()
      reads this
    {
      && (channels.Some? <==> targets.Some?)
      && (control.Some? ==> channels.Some? && control.value in channels.value)
    }

    constructor (password: seq<byte>)
      ensures Valid() && this.password == password
      ensures channels == None && targets == None && control == None && dialed == []
    {
      this.password := password;
      channels, targets, control, dialed := None, None, None, [];
    }

    /** `start`: a started client throws IllegalStateException. Otherwise the group and an empty
        forward table are created and the first connection to the server becomes the control
        channel; a failed connect closes it, leaves no control channel and throws, while the
        client stays started. */
    method Start(net: Net, ch: ChannelId, connectOk: bool) returns (r: Outcome)
      requires Valid()
      modifies this, net
      ensures Valid() && dialed == old(dialed)
      ensures old(channels).Some? ==>
                && r == Threw(IllegalState)
                && channels == old(channels) && targets == old(targets) && control == old(control)
                && net.State() == old(net.State())
      ensures old(channels).None? ==>
                && channels == Some({ch}) && targets == Some(map[])
                && (connectOk ==> r == Done && control == Some(ch) && net.State() == old(net.State()))
                && (!connectOk ==> r == Threw(ConnectFailure) && control == None
                                   && net.State() == old(net.State()).(closed := old(net.closed) + {ch}))
    {
      if channels.Some? {
        return Threw(IllegalState);
      }
      channels := Some({ch});
      targets := Some(map[]);
      if !connectOk {
        control := None;
        net.closed := net.closed + {ch};
        return Threw(ConnectFailure);
      }
      control := Some(ch);
      r := Done;
    }

    /** `close`: a stopped client throws IllegalStateException; otherwise every channel of the
        group is closed and the client is stopped. */
    method Close(net: Net) returns (r: Outcome)
      requires Valid()
      modifies this, net
      ensures Valid() && dialed == old(dialed)
      ensures old(channels).None? ==>
                r == Threw(IllegalState) && channels == None && targets == old(targets)
                && control == old(control) && net.State() == old(net.State())
      ensures old(channels).Some? ==>
                && r == Done && channels == None && targets == None && control == None
                && net.State() == old(net.State()).(closed := old(net.closed) + old(channels).value)
    {
      if channels.None? {
        return Threw(IllegalState);
      }
      net.closed := net.closed + channels.value;
      targets := None;
      channels := None;
      control := None;
      r := Done;
    }

    /** `handleCommand`: a stopped client throws IllegalStateException. An `add P host:Q` line
        records the forward (see `AddForward`); any other line leaves the table alone. The verdict
        is always the default one for the whole line. */
    method HandleCommand(net: Net, command: string) returns (r: Result<Endpoint.Reply>)
      requires Valid()
      modifies this, net
      ensures Valid()
      ensures channels == old(channels) && control == old(control) && dialed == old(dialed)
      ensures old(channels).None? ==>
                r == Failed(IllegalState) && targets == old(targets) && net.State() == old(net.State())
      ensures old(channels).Some? && ParseAdd(command).None? ==>
                r == Ok(Endpoint.HandleCommand(command)) && targets == old(targets) && net.State() == old(net.State())
      ensures old(channels).Some? && ParseAdd(command).Some? ==>
                var c := ParseAdd(command).value;
                && (ParseInt(c.source).None? || ParseInt(c.target).None? ==>
                      r == Failed(NumberFormat) && targets == old(targets) && net.State() == old(net.State()))
                && (ParseInt(c.source).Some? && ParseInt(c.target).Some? ==>
                      var src := ParseInt(c.source).value;
                      && targets == Some(old(targets).value[src := Addr(c.host, ParseInt(c.target).value)])
                      && (old(control).None? ==> r == Failed(NullPointer) && net.State() == old(net.State()))
                      && (old(control).Some? ==>
                            r == Ok(Endpoint.HandleCommand(command))
                            && net.State() == old(net.State()).(writes := old(net.writes) + [Frame(old(control).value, Buf(OpenFrame(src)))])))
    {
      if channels.None? {
        return Failed(IllegalState);
      }
      var parsed := ParseAdd(command);
      if parsed.Some? {
        var added := AddForward(net, parsed.value);
        if added.Threw? {
          return Failed(added.error);
        }
      }
      r := Ok(Endpoint.HandleCommand(command));
    }

    /** The body of a matching `add P host:Q` line: parse both ports (NumberFormatException above
        `Integer.MAX_VALUE`, before anything changes), record P -> (host, Q) replacing any earlier
        forward, then send OPEN(P) on the control channel, which throws NullPointerException after
        the forward is recorded when there is no control channel. */
    method AddForward(net: Net, c: AddCommand) returns (r: Outcome)
      requires Valid() && channels.Some? && WellFormed(c)
      modifies this, net
      ensures Valid()
      ensures channels == old(channels) && control == old(control) && dialed == old(dialed)
      ensures ParseInt(c.source).None? || ParseInt(c.target).None? ==>
                r == Threw(NumberFormat) && targets == old(targets) && net.State() == old(net.State())
      ensures ParseInt(c.source).Some? && ParseInt(c.target).Some? ==>
                var src := ParseInt(c.source).value;
                && targets == Some(old(targets).value[src := Addr(c.host, ParseInt(c.target).value)])
                && (old(control).None? ==> r == Threw(NullPointer) && net.State() == old(net.State()))
                && (old(control).Some? ==>
                      r == Done
                      && net.State() == old(net.State()).(writes := old(net.writes) + [Frame(old(control).value, Buf(OpenFrame(src)))]))
    {
      var src := ParseInt(c.source);
      if src.None? {
        return Threw(NumberFormat);
      }
      var dst := ParseInt(c.target);
      if dst.None? {
        return Threw(NumberFormat);
      }
      targets := Some(targets.value[src.value := Addr(c.host, dst.value)]);
      if control.None? {
        return Threw(NullPointer);
      }
      net.writes := net.writes + [Frame(control.value, Buf(OpenFrame(src.value)))];
      r := Done;
    }

    /** `handleConnectionRequest`: a port without a forward throws IllegalArgumentException (and a
        stopped client, with no table, NullPointerException). Otherwise the forward's target is
        dialed; a failed dial does nothing more. A successful one opens a data connection to the
        server, which once its TLS handshake is over writes the 8-byte request id and is then
        paired with the target connection, target first. */
    method HandleConnectionRequest(net: Net, remoteId: int, srcPort: int, dialOk: bool,
                                   target: ChannelId, backend: ChannelId) returns (r: Outcome)
      requires Valid() && IsLong(remoteId)
      modifies this, net
      ensures Valid()
      ensures targets == old(targets) && control == old(control)
      ensures old(targets).None? ==>
                r == Threw(NullPointer) && channels == old(channels) && dialed == old(dialed) && net.State() == old(net.State())
      ensures old(targets).Some? && srcPort !in old(targets).value ==>
                r == Threw(IllegalArgument) && channels == old(channels) && dialed == old(dialed) && net.State() == old(net.State())
      ensures old(targets).Some? && srcPort in old(targets).value ==>
                && r == Done
                && dialed == old(dialed) + [old(targets).value[srcPort]]
                && (!dialOk ==> channels == old(channels) && net.State() == old(net.State()))
                && (dialOk ==>
                      && channels == Some(old(channels).value + {target, backend})
                      && net.State() == old(net.State()).(
                           writes := old(net.writes) + [Frame(backend, Buf(WriteLong(remoteId)))],
                           pair := old(net.pair)[target := backend][backend := target],
                           bound := old(net.bound) + {target, backend},
                           readLog := old(net.readLog) + [target, backend],
                           readPending := old(net.readPending) + {target, backend}))
      ensures old(net.Valid()) && target != backend && target !in old(net.pair) && backend !in old(net.pair) ==> net.Valid()
    {
      if targets.None? {
        return Threw(NullPointer);
      }
      if srcPort !in targets.value {
        return Threw(IllegalArgument);
      }
      dialed := dialed + [targets.value[srcPort]];
      if dialOk {
        OpenDataConnection(net, remoteId, target, backend);
      }
      r := Done;
    }

    /** The callbacks of a successful dial: both new connections join the group; once the data
        connection's handshake is over it writes the request id and the two are paired. */
    method OpenDataConnection(net: Net, remoteId: int, target: ChannelId, backend: ChannelId)
      requires Valid() && channels.Some? && IsLong(remoteId)
      modifies this, net
      ensures Valid()
      ensures targets == old(targets) && control == old(control) && dialed == old(dialed)
      ensures channels == Some(old(channels).value + {target, backend})
      ensures net.State() == old(net.State()).(
                writes := old(net.writes) + [Frame(backend, Buf(WriteLong(remoteId)))],
                pair := old(net.pair)[target := backend][backend := target],
                bound := old(net.bound) + {target, backend},
                readLog := old(net.readLog) + [target, backend],
                readPending := old(net.readPending) + {target, backend})
      ensures old(net.Valid()) && target != backend && target !in old(net.pair) && backend !in old(net.pair) ==> net.Valid()
    {
      channels := Some(channels.value + {target, backend});
      net.writes := net.writes + [Frame(backend, Buf(WriteLong(remoteId)))];
      assert net.State() == old(net.State()).(writes := old(net.writes) + [Frame(backend, Buf(WriteLong(remoteId)))]);
      net.BindChannels(target, backend);
    }
  }
}
