# Loopback tunnel core in Dafny

Loopback is a reverse TCP tunnel. A client behind a NAT or firewall keeps a TLS control
connection open to a public server. The client asks the server to listen on public ports.
When someone connects to one of those ports, the server parks the connection in a numbered
slot and sends the slot id to the client over the control connection. The client dials its
local target and opens a new data connection to the server, which names the session and the
slot. The server then pairs the parked connection with the data connection and relays bytes
both ways, reading from one leg only after the write to the other leg has completed.

This project models the core of that protocol, handler by handler:

- the server's identification of backend connections: `BackendIdentifier`;
- the control session with its slot table and listeners: `ServerControl` and `Slots`;
- the frontend and backend transport handlers: `FrontendTransport` and `ServerBackendTransport`;
- the idle-stamping common handler: `ServerCommon`;
- the client, its console `add` command and its control and data handlers: `Client`,
  `AddCommand`, `ClientControl` and `ClientTransport`;
- the shared console commands: `Endpoint`;
- the constants, the timeout matcher and `bindChannels`: `Constants` and `Channels`.

The model works like this:

- The Netty channels of one process are one object, `Channels.Net`. It holds the channel
  attributes the handlers use: `ATTR_PAIR`, `ATTR_BOUND`, `ATTR_ID` and `ATTR_IDLE`. It also
  holds the reads requested, the writes in flight, every frame written, every user event
  passed on and every channel closed. `ATTR_ID` and `ATTR_IDLE` map a channel to an optional
  value, because Netty's `attr(key)` creates an attribute before anything is stored in it, so
  a channel can have the attribute and still hold no value.
- A handler that is not @Sharable carries Netty's `added` mark (`ServerControl.AddedMark`):
  putting the same instance into a second pipeline throws ChannelPipelineException.
- Each handler is a class whose methods update that object and their own fields.
- A Java exception is a returned value (`Outcome`, `Result`), not a precondition.
- Wire frames are byte sequences with a big-endian codec (`Codec`).

## Model

| member | source | states |
|---|---|---|
| Codec.ReadWriteLong | src/main/java/net/daporkchop/loopback/server/backend/ServerBackendTransportHandler.java:46-48 | a Java long written as 8 big-endian bytes reads back as the same long |
| Codec.WriteReadLong | src/main/java/net/daporkchop/loopback/server/backend/BackendChannelIdentifier.java:72 | any 8 bytes read as a long and written again give back the same 8 bytes |
| Codec.ReadWriteShort | src/main/java/net/daporkchop/loopback/server/backend/ServerControlHandler.java:116 | `writeShort` keeps the low 16 bits, and `readUnsignedShort` gives back the value modulo 65536 |
| Codec.ToInt | src/main/java/net/daporkchop/loopback/server/backend/ServerControlHandler.java:163 | the `(int)` cast gives a 32-bit value congruent to the long modulo 2^32 |
| Constants.TimeoutMatcherAsWritten | src/main/java/net/daporkchop/loopback/util/Constants.java:60 | the matcher as written needs an idle stamp to match |
| Constants.AsWrittenNeverEvicts | src/main/java/net/daporkchop/loopback/util/Constants.java:60 | as written, a channel whose last activity is not in the future is never matched |
| Constants.AsWrittenKeepsStaleChannel | src/main/java/net/daporkchop/loopback/util/Constants.java:60 | a channel idle since 0 is kept at 20000 by the written matcher, but timed out under the intended one |
| Constants.TimedOutIffElapsed | src/main/java/net/daporkchop/loopback/util/Constants.java:60 | a stamped channel times out exactly when SERVER_CONNECTION_TIMEOUT ms have passed since its stamp; an unstamped one never does |
| Constants.TimedOutStaysTimedOut | src/main/java/net/daporkchop/loopback/util/Constants.java:60 | once timed out, a channel with no new activity stays timed out |
| Channels.Net.BindChannels | src/main/java/net/daporkchop/loopback/util/Constants.java:72-83 | both channels are marked bound and point at each other, and a read is requested on both; pairing two unpaired distinct channels keeps the pairing symmetric and backpressure intact |
| Channels.BindKeepsSymmetric | src/main/java/net/daporkchop/loopback/util/Constants.java:75-78 | pairing two distinct unpaired channels keeps every pair symmetric and never pairs a channel with itself |
| Channels.Net.Forward | src/main/java/net/daporkchop/loopback/server/backend/ServerBackendTransportHandler.java:41 | the message is written unchanged to the peer; the leg's read is spent and its write is in flight |
| Channels.Net.WriteComplete | src/main/java/net/daporkchop/loopback/util/Constants.java:59 | a completed write to a leg requests a read on that leg's peer and clears the write in flight |
| Channels.Net.ClosePeer | src/main/java/net/daporkchop/loopback/server/frontend/FrontendTransportHandler.java:52 | an unregistered paired leg closes its peer; an unpaired one closes nothing |
| Channels.Net.Relay | src/main/java/net/daporkchop/loopback/client/backend/ClientTransportHandler.java:59-64 | an unpaired read throws IllegalStateException and changes nothing; a paired read forwards the message |
| Channels.RunKeepsBackpressure | src/main/java/net/daporkchop/loopback/util/Constants.java:59 | however deliveries and write completions interleave, no leg has a read outstanding while its write is in flight |
| Slots.IndexOfNull | src/main/java/net/daporkchop/loopback/server/backend/ServerControlHandler.java:169 | the result is the lowest free slot, or -1 exactly when no slot is free |
| Slots.PlaceLowestFree | src/main/java/net/daporkchop/loopback/server/backend/ServerControlHandler.java:169-175 | a new channel takes the lowest free slot, or a new slot at the end, and no other slot changes |
| Slots.PlaceKeepsDistinct | src/main/java/net/daporkchop/loopback/server/backend/ServerControlHandler.java:169-175 | storing a channel that is not waiting yet keeps every channel in at most one slot |
| Slots.AsWrittenDuplicates | src/main/java/net/daporkchop/loopback/server/backend/ServerControlHandler.java:184 | as written, the first channel on an empty table occupies slots 0 and 1 |
| Slots.AsWrittenKeepsClaimedChannel | src/main/java/net/daporkchop/loopback/server/backend/ServerControlHandler.java:184 | as written, after the first channel is claimed at its announced slot 0, the table still holds it in slot 1 |
| Slots.ClaimedChannelLeaves | src/main/java/net/daporkchop/loopback/server/backend/ServerControlHandler.java:163-175 | storing a channel once and claiming the slot it was announced at removes it from the table |
| Slots.Free | src/main/java/net/daporkchop/loopback/server/backend/ServerControlHandler.java:163 | `set(id, null)` empties the slot, returns its former occupant and leaves every other slot alone |
| Slots.FreeKeepsDistinct | src/main/java/net/daporkchop/loopback/server/backend/ServerControlHandler.java:163 | freeing keeps every channel in at most one slot, and the claimed channel no longer waits |
| Slots.FreedSlotReused | src/main/java/net/daporkchop/loopback/server/backend/ServerControlHandler.java:163-175 | after a slot is freed, the next channel goes to that slot or to a lower one |
| Slots.DistinctPairsOnce | src/main/java/net/daporkchop/loopback/server/backend/ServerControlHandler.java:162-166 | with each channel in at most one slot, two different slot ids never claim the same channel |
| ServerControl.HandshakeFrame | src/main/java/net/daporkchop/loopback/server/backend/ServerControlHandler.java:78 | HANDSHAKE is 9 bytes: the opcode, then the session id, which reads back unchanged |
| ServerControl.ResultFrame | src/main/java/net/daporkchop/loopback/server/backend/ServerControlHandler.java:114-123 | RESULT is 5 bytes: the opcode, the port (read back modulo 65536), the operation, then 1 or 0 |
| ServerControl.IncomingFrame | src/main/java/net/daporkchop/loopback/server/backend/ServerControlHandler.java:177-181 | INCOMING is the opcode, the slot id (read back unchanged), the local port (read back modulo 65536), then the address bytes |
| ServerControl.DecodeCommand | src/main/java/net/daporkchop/loopback/server/backend/ServerControlHandler.java:96-102 | a decoded command's port is an unsigned 16-bit value |
| ServerControl.DecodeEncodeCommand | src/main/java/net/daporkchop/loopback/server/backend/ServerControlHandler.java:99-134 | every ADD or REMOVE with a port in range decodes to itself |
| ServerControl.UnknownOpcodeRejected | src/main/java/net/daporkchop/loopback/server/backend/ServerControlHandler.java:150-151 | any opcode other than ADD and REMOVE throws IllegalArgumentException |
| ServerControl.ServerControlHandler.HandlerAdded | src/main/java/net/daporkchop/loopback/server/backend/ServerControlHandler.java:67-82 | the first call takes the channel, registers the session, creates empty tables and writes HANDSHAKE first; a second call throws IllegalStateException and changes nothing |
| ServerControl.ServerControlHandler.HandlerRemoved | src/main/java/net/daporkchop/loopback/server/backend/ServerControlHandler.java:84-91 | every listener in the group is closed, and the group and the waiting table are dropped; parked frontend channels stay open |
| ServerControl.ServerControlHandler.ChannelRead | src/main/java/net/daporkchop/loopback/server/backend/ServerControlHandler.java:94-156 | ADD replies RESULT(port, 0, bound?) and records the listener, or throws IllegalStateException on a port already recorded, keeping the old entry; REMOVE closes and forgets the listener and replies ok=1, or replies ok=0; malformed input throws and changes nothing |
| ServerControl.ServerControlHandler.BackendChannel | src/main/java/net/daporkchop/loopback/server/backend/ServerControlHandler.java:158-160 | the first call makes the backend channel's "handle" this session's one transport handler; every later call throws ChannelPipelineException, because that handler is not @Sharable, and leaves every pipeline as it was |
| ServerControl.ServerControlHandler.BackendChannelFreshHandler | src/main/java/net/daporkchop/loopback/server/backend/ServerControlHandler.java:158-160 | with a new transport handler per call, every backend channel's "handle" becomes the session's transport handler |
| ServerControl.AsWrittenSecondDataConnectionRefused | src/main/java/net/daporkchop/loopback/server/backend/ServerControlHandler.java:158-160 | as written, a new session's first data connection gets the transport handler and its second is refused and keeps its identifier |
| ServerControl.FreshHandlerTakesEveryDataConnection | src/main/java/net/daporkchop/loopback/server/backend/ServerControlHandler.java:158-160 | with a fresh handler per backend channel, both data connections of a session get its transport handler |
| ServerControl.ServerControlHandler.BackendChannelReady | src/main/java/net/daporkchop/loopback/server/backend/ServerControlHandler.java:162-166 | the slot named by `(int) id` is freed and its channel paired with the backend, which keeps pairing symmetric when both were unpaired; out-of-range ids throw IndexOutOfBoundsException and empty slots throw NullPointerException without pairing |
| ServerControl.ServerControlHandler.IncomingChannel | src/main/java/net/daporkchop/loopback/server/backend/ServerControlHandler.java:168-185 | as written: the channel is stored at the lowest free slot, INCOMING(slot, port, address) is written, then the channel is appended a second time, so it sits at its announced slot and at the end; appends beyond 2^31 - 1 entries throw OutOfMemoryError |
| ServerControl.ServerControlHandler.Sweep | src/main/java/net/daporkchop/loopback/server/backend/ServerControlHandler.java:81 | when every group channel's idle attribute is absent or set, exactly the channels TIMEOUT_MATCHER as written matches are closed; an attribute that exists without a value throws NullPointerException after closing at most matched channels; while no idle stamp lies in the future, nothing is closed |
| BackendIdentifier.Classify | src/main/java/net/daporkchop/loopback/server/backend/BackendChannelIdentifier.java:44-75 | only a buffer that starts with the token is accepted; the bare token is a control connection, and token plus 8 bytes is a data connection for the session id those bytes hold |
| BackendIdentifier.TokenIsControl | src/main/java/net/daporkchop/loopback/server/backend/BackendChannelIdentifier.java:66-69 | the bare token opens a control session |
| BackendIdentifier.WrongTokenRejected | src/main/java/net/daporkchop/loopback/server/backend/BackendChannelIdentifier.java:57-64 | one wrong token byte rejects the connection, whatever its length |
| BackendIdentifier.WrongLengthRejected | src/main/java/net/daporkchop/loopback/server/backend/BackendChannelIdentifier.java:51-55 | a length other than 32 or 40 bytes is rejected |
| BackendIdentifier.TokenMatches | src/main/java/net/daporkchop/loopback/server/backend/BackendChannelIdentifier.java:58-64 | the byte loop succeeds exactly when the first 32 bytes equal the token |
| BackendIdentifier.BackendChannelIdentifier.ChannelRead | src/main/java/net/daporkchop/loopback/server/backend/BackendChannelIdentifier.java:42-79 | a rejected message closes the channel; a control connection installs a new session handler, which registers and sends HANDSHAKE; a data connection is handed to its session, which takes only its first and throws ChannelPipelineException for the rest, or throws NullPointerException for an unknown session |
| ServerBackendTransport.SlotIdRoundTrip | src/main/java/net/daporkchop/loopback/server/backend/ServerBackendTransportHandler.java:46-48 | a non-negative int slot id sent as a long and cast back to int is the same slot |
| ServerBackendTransport.PlacedSlotRoundTrip | src/main/java/net/daporkchop/loopback/server/backend/ServerControlHandler.java:169-179 | the slot INCOMING reports, echoed back by the client, names the slot where the channel waits |
| ServerBackendTransport.ServerBackendTransportHandler.ChannelRead | src/main/java/net/daporkchop/loopback/server/backend/ServerBackendTransportHandler.java:38-56 | a paired leg forwards; an unpaired leg's 8-byte message claims its slot with the whole new state of `backendChannelReady`, including its IndexOutOfBoundsException and NullPointerException cases; anything else throws IllegalStateException and changes nothing |
| ServerBackendTransport.ServerBackendTransportHandler.ChannelUnregistered | src/main/java/net/daporkchop/loopback/server/backend/ServerBackendTransportHandler.java:58-64 | closing a paired leg closes its peer, and nothing else changes |
| FrontendTransport.FrontendTransportHandler.ChannelActive | src/main/java/net/daporkchop/loopback/server/frontend/FrontendTransportHandler.java:36-41 | the channel is parked as `incomingChannel` writes it (announced slot plus the second append) and announced, then the active event is passed on; a thrown exception passes nothing on |
| FrontendTransport.FrontendTransportHandler.ChannelRead | src/main/java/net/daporkchop/loopback/server/frontend/FrontendTransportHandler.java:43-48 | before pairing a read throws IllegalStateException; after it the message goes unchanged to the peer under backpressure |
| FrontendTransport.FrontendTransportHandler.ChannelUnregistered | src/main/java/net/daporkchop/loopback/server/frontend/FrontendTransportHandler.java:50-55 | closing a paired leg closes its peer |
| ServerCommon.Write | src/main/java/net/daporkchop/loopback/server/ServerCommonHandler.java:46-52 | a write on a channel whose idle attribute holds a timestamp restamps it with the current time and passes the message on unchanged; otherwise it throws NullPointerException, writes nothing, and leaves the attribute created without a value |
| ServerCommon.UserEventTriggered | src/main/java/net/daporkchop/loopback/server/ServerCommonHandler.java:35-44 | the idle key restamps a channel whose attribute holds a timestamp, and throws NullPointerException otherwise, leaving the attribute created without a value; every other event, and the key after a stamp, is passed on |
| Endpoint.HandleCommand | src/main/java/net/daporkchop/loopback/util/Endpoint.java:31-40 | the endpoint stops exactly on "stop"; "help" logs the command list; anything else logs "Unknown command!" and then the list |
| Endpoint.OnlyExactStopStops | src/main/java/net/daporkchop/loopback/util/Endpoint.java:32 | the comparison is exact and case-sensitive |
| AddCommand.ParseAdd | src/main/java/net/daporkchop/loopback/client/Client.java:57 | a parse yields digit-only ports and a host without ':' |
| AddCommand.ParseAddIffMatches | src/main/java/net/daporkchop/loopback/client/Client.java:57 | the parser accepts a line with groups c exactly when the line matches `^add ([0-9]+) ([^:]+):([0-9]+)$` with those groups, with `$` allowing one final line terminator |
| AddCommand.ParseAddOfCommand | src/main/java/net/daporkchop/loopback/client/Client.java:57 | the text of a well-formed command parses back to that command |
| AddCommand.ParseInt | src/main/java/net/daporkchop/loopback/client/Client.java:113-115 | a digit group parses to its decimal value, or fails above Integer.MAX_VALUE |
| AddCommand.ParseIntOfDecimal | src/main/java/net/daporkchop/loopback/client/Client.java:113-115 | the decimal text of any int up to Integer.MAX_VALUE parses back to it |
| Client.OpenFrame | src/main/java/net/daporkchop/loopback/client/Client.java:118 | OPEN is 3 bytes: COMMAND_OPEN, then the port modulo 65536 |
| Client.OpenFrameTruncatesPort | src/main/java/net/daporkchop/loopback/client/Client.java:113-118 | asking to forward port 65616 sends an OPEN for port 80 |
| Client.AddCommandDoesNotStop | src/main/java/net/daporkchop/loopback/client/Client.java:120 | an `add` line never stops the client and is reported as an unknown command |
| Client.Client.Start | src/main/java/net/daporkchop/loopback/client/Client.java:73-95 | a started client throws IllegalStateException; otherwise the group and the empty table are created and the first connection becomes the control channel, or the connect fails and the client stays started |
| Client.Client.Close | src/main/java/net/daporkchop/loopback/client/Client.java:97-105 | a stopped client throws IllegalStateException; otherwise every channel in the group is closed and the client is stopped |
| Client.Client.HandleCommand | src/main/java/net/daporkchop/loopback/client/Client.java:107-121 | a stopped client throws; a matching `add` line records the forward and sends OPEN; the verdict is always the default one for the line |
| Client.Client.AddForward | src/main/java/net/daporkchop/loopback/client/Client.java:112-118 | ports over Integer.MAX_VALUE throw NumberFormatException before any change; otherwise the forward replaces any earlier one, then OPEN(P) goes to the control channel, or NullPointerException when there is none |
| Client.Client.HandleConnectionRequest | src/main/java/net/daporkchop/loopback/client/Client.java:123-142 | an unknown port throws IllegalArgumentException; otherwise its target is dialed, and a successful dial opens a data connection that writes the request id and is paired with the target |
| Client.Client.OpenDataConnection | src/main/java/net/daporkchop/loopback/client/Client.java:131-135 | both new channels join the group, the data connection writes the 8-byte request id, and the two are paired |
| ClientControl.WriteOpenFrames | src/main/java/net/daporkchop/loopback/client/backend/ClientControlHandler.java:47-49 | one OPEN per recorded port, each port exactly once, in the table's iteration order |
| ClientControl.DecodeRequest | src/main/java/net/daporkchop/loopback/client/backend/ClientControlHandler.java:65-66 | a request needs 10 bytes, else IndexOutOfBoundsException; it yields a long id and an unsigned short port |
| ClientControl.DecodeRequestOf | src/main/java/net/daporkchop/loopback/client/backend/ClientControlHandler.java:65-66 | an id followed by a port reads back as that id and the port modulo 65536, whatever follows |
| ClientControl.ClientControlHandler.UserEventTriggered | src/main/java/net/daporkchop/loopback/client/backend/ClientControlHandler.java:40-56 | after a successful handshake the token is written first, then one OPEN per recorded forward; other events write nothing; every event is passed on |
| ClientControl.ClientControlHandler.ChannelRead | src/main/java/net/daporkchop/loopback/client/backend/ClientControlHandler.java:58-76 | while the id attribute is absent, a message creates it and sets it to its first 8 bytes, or throws IndexOutOfBoundsException on a shorter message and leaves the attribute without a value; once the attribute exists it is never replaced and every message is a connection request handed to the client, with the whole new state of a successful dial; malformed requests and non-buffers throw and change nothing |
| ClientTransport.AuthFrame | src/main/java/net/daporkchop/loopback/client/backend/ClientTransportHandler.java:47-49 | a data connection authenticates with the token, then the session id as a long |
| ClientTransport.AuthFrameIsDataConnection | src/main/java/net/daporkchop/loopback/client/backend/ClientTransportHandler.java:47-49 | the server classifies the client's data authentication as a data connection for the client's session id, and the bare token as a control connection |
| ClientTransport.AuthFrameWrongTokenRejected | src/main/java/net/daporkchop/loopback/client/backend/ClientTransportHandler.java:47-49 | a server with a different token rejects the client's authentication |
| ClientTransport.ClientTransportHandler.HandshakeComplete | src/main/java/net/daporkchop/loopback/client/backend/ClientTransportHandler.java:43-54 | a successful handshake writes the token and the control channel's id, or throws NullPointerException when there is no control channel or its id attribute has no value, creating that attribute when it was absent; a failed one throws NullPointerException on the null channel of the future before its close is reached |
| ClientTransport.ClientTransportHandler.ChannelRead | src/main/java/net/daporkchop/loopback/client/backend/ClientTransportHandler.java:59-64 | before pairing a read throws IllegalStateException; after it the message goes unchanged to the target |

## Left out

- Netty's event loops and asynchrony are not modelled. Each listener runs as one atomic step when its
  future completes, and the outcome of a bind, connect or TLS handshake is a boolean parameter
  (`bindOk`, `connectOk`, `dialOk`, `ok`). `synchronized` blocks are not modelled either,
  because each step is already atomic.
- TLS, logging and reference counting are left out: the `ReferenceCountUtil.release` calls
  in `finally` blocks free buffers and change no modelled state.
- The clock is a parameter, `now`. Freshly accepted channel ids are also parameters
  (`listener`, `target`, `backend`).
- Server.java is not part of this model. Its session registry is the map
  `ServerControl.Server.sessions`. The session id that `addControlChannel` draws is the
  parameter `drawnId` or `sessionId`, required to be unused. `getControlChannel` for an
  unknown id returns null, which the model turns into NullPointerException.
- `writeAddress` is not part of this model. The encoded remote address is given as bytes.
- `Addr`, `TargetTransportHandler`, `CommonHandler` and the channel initializers are not part
  of this model.
- BackendChannelInitializerClient is not part of this model. Its choice of the first server
  connection as the control channel is folded into `Client.Client.Start`.
- `DefaultChannelGroup` drops closed channels from the group on its own. The model does not
  do this, so group membership here means "added and not removed by the handler".
- Client.Client.Close: the group is dropped at once. The source drops it in a listener once
  closing has completed.
- The client reads no opcode byte on its control channel. It takes the first message's first
  8 bytes as the session id and every later message as `id, port`. The server instead prefixes
  opcodes and also sends RESULT frames. The client opens ports with `COMMAND_OPEN` = 0,
  which the server's switch reads as `CONTROL_HANDSHAKE`, not `CONTROL_ADD` = 1. The model
  follows each side's code as written and claims no client-to-server command round trip.
  The definitions of the `CONTROL_*` opcodes are not part of this model. The model assumes the
  values HANDSHAKE 0, ADD 1, REMOVE 2, RESULT 3, INCOMING 4.
- ServerControl.ServerControlHandler.ChannelRead requires `Active()`, the state between
  `handlerAdded` and `handlerRemoved`. Netty delivers no read outside it.
- ServerControl.ServerControlHandler.ChannelRead: when an ADD names a port already recorded,
  the new listener stays bound but is not tracked. The model records only the RESULT and the
  exception, not the leaked listener.
- ServerControl.ServerControlHandler.IncomingChannel: Java's 2^31 - 1 element limit on
  `ArrayList` is the only resource bound modelled. It is written as OutOfMemory when no slot
  is free and the table is full.
- AddCommand.ParseInt is defined only on non-empty digit strings, the only strings the pattern
  hands to `Integer.parseInt`.
- The code is followed as written, also where it does less than its purpose suggests:
  - the sweep closes the group's channels, which are the session's listeners, by TIMEOUT_MATCHER
    as written (see Findings), not the waiting frontend channels;
  - `incomingChannel` appends each channel a second time, as written (see Findings);
  - `handlerRemoved` does not close the waiting frontend channels;
  - an ADD for a port already recorded still replies RESULT before throwing.
- ClientTransport.ClientTransportHandler.HandshakeComplete: SslHandler's own closing of a channel
  whose handshake failed is not part of this model.
- ServerBackendTransport.ServerBackendTransportHandler.ChannelRead promises that pairing stays
  symmetric only when the claimed frontend channel is still unpaired. As written, a claimed
  channel stays in the table in a second slot (see Findings), so the table alone does not rule
  out a claim that names an already paired channel. The corrected store, `Slots.Place`, keeps
  each channel in at most one slot.
- ServerControl.ServerControlHandler.Sweep: when the matcher throws partway, the model states
  only that the closed channels lie between none and all of the matched ones, not which of them
  the group's iteration order reached. A periodic Netty task that throws is not scheduled again;
  the model covers one run of the sweep.

## Findings

| source | as written | input that shows it | evidently intended | confidence | as-written member | corrected member |
|---|---|---|---|---|---|---|
| src/main/java/net/daporkchop/loopback/server/backend/ServerControlHandler.java:184 | after storing the channel in a slot and sending INCOMING, `incomingChannel` appends the channel to the table again | the first frontend channel on an empty table fills slots 0 and 1; after its claim at slot 0 the table is `[null, channel]`, so the table keeps a stale second slot for every connection and only grows | store the channel once | not executed | Slots.AsWrittenKeepsClaimedChannel | Slots.ClaimedChannelLeaves |
| src/main/java/net/daporkchop/loopback/server/backend/ServerControlHandler.java:159 | one `ServerBackendTransportHandler`, not @Sharable, is created per session and put into every backend channel's pipeline | a session's second data connection: the `replace` throws ChannelPipelineException, the channel keeps its identifier, and its 8-byte slot message is then rejected by length and the channel closed | a new transport handler per backend channel | not executed | ServerControl.AsWrittenSecondDataConnectionRefused | ServerControl.FreshHandlerTakesEveryDataConnection |
| src/main/java/net/daporkchop/loopback/util/Constants.java:60 | TIMEOUT_MATCHER matches when `idle >= now + SERVER_CONNECTION_TIMEOUT` | a channel idle since 0, swept at 20000: the matcher is false, so the stale channel is never closed | match when `now - idle >= SERVER_CONNECTION_TIMEOUT` | not executed | Constants.AsWrittenKeepsStaleChannel | Constants.TimedOutIffElapsed |
