/** Values shared by every part of the tunnel model: bytes, channel identities,
    the Java exceptions the handlers throw, inbound messages and pipeline events. */
module Base {

  /** An unsigned byte as it travels on the wire. */
  type byte = x: int | 0 <= x < 256

  /** A Java `long`. */
  type long = x: int | -0x8000_0000_0000_0000 <= x < 0x8000_0000_0000_0000

  /** A Netty channel, known only by its identity. */
  type ChannelId = nat

  datatype Option<T> = None | Some(value: T)

  /** The exceptions the modelled handlers throw out of a Netty callback. */
  datatype Exception =
    | IllegalState
    | IllegalArgument
    | NullPointer
    | IndexOutOfBounds
    | NumberFormat
    | ConnectFailure
    | OutOfMemory
    | ChannelPipeline

  /** How a `void` handler call ends: normally, or by throwing. */
  datatype Outcome = Done | Threw(error: Exception)

  /** How a value-returning call ends. */
  datatype Result<T> = Ok(value: T) | Failed(error: Exception)

  /** A message handed to `channelRead`: a byte buffer (its readable bytes) or some other object. */
  datatype Msg = Buf(data: seq<byte>) | Obj(className: string)

  /** A user event passed along a pipeline. `IdleKey` is the ATTR_IDLE key object itself. */
  datatype Event = IdleKey | Active | HandshakeSuccess | HandshakeFailure | Other(name: string)

  /** One `writeAndFlush` of a message on a channel. */
  datatype Frame = Frame(channel: ChannelId, msg: Msg)

  /** One event that a handler passed on to the next handler of a channel's pipeline. */
  datatype Fired = Fired(channel: ChannelId, event: Event)
}
