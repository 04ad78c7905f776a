/** Protocol constants and the idle-timeout matcher of the server's sweep. */
module Constants {
  import opened Base

  /** Length of the authentication token: a SHA-256 digest, 256 bits shifted right by 3. */
  const PASSWORD_BYTES: nat := 256 / 8

  /** Milliseconds a channel may stay idle. */
  const SERVER_CONNECTION_TIMEOUT: int := 10000

  /** Client-side command opcodes. */
  const COMMAND_OPEN: byte := 0
  const COMMAND_CLOSE: byte := 1

  /** Server control-channel opcodes (values of the wire protocol). */
  const CONTROL_HANDSHAKE: byte := 0
  const CONTROL_ADD: byte := 1
  const CONTROL_REMOVE: byte := 2
  const CONTROL_RESULT: byte := 3
  const CONTROL_INCOMING: byte := 4

  /** The `op` field of a RESULT reply. */
  const RESULT_OP_ADD: byte := 0
  const RESULT_OP_REMOVE: byte := 1

  /** TIMEOUT_MATCHER exactly as written: the channel carries an idle timestamp and
      that timestamp is at least `now` plus the timeout. */
  function TimeoutMatcherAsWritten(idle: Option<int>, now: int): (matches: bool)
    ensures matches ==> idle.Some?
  {
    idle.Some? && idle.value >= now + SERVER_CONNECTION_TIMEOUT
  }

  /** As written, a channel whose last activity is not in the future is never matched,
      however long ago that activity was. */
  lemma AsWrittenNeverEvicts(last: int, now: int)
    requires last <= now
    ensures !TimeoutMatcherAsWritten(Some(last), now)
  {
  }

  /** The concrete case: a channel last active at 0 is still kept at 20000,
      twice the timeout later, although it has been idle for longer than the timeout. */
  lemma AsWrittenKeepsStaleChannel()
    ensures !TimeoutMatcherAsWritten(Some(0), 20000)
    ensures TimedOut(Some(0), 20000)
  {
  }

  /** The evidently intended matcher: the channel carries an idle timestamp and at least
      the timeout has passed since it. */
  function TimedOut(idle: Option<int>, now: int): (matches: bool)
    ensures matches ==> idle.Some?
  {
    idle.Some? && now - idle.value >= SERVER_CONNECTION_TIMEOUT
  }

  /** A channel stamped at `now` is never timed out at `now`; one stamped earlier is timed out
      exactly when the timeout has elapsed. */
  lemma TimedOutIffElapsed(last: int, now: int)
    ensures TimedOut(Some(last), now) <==> now >= last + SERVER_CONNECTION_TIMEOUT
    ensures !TimedOut(Some(now), now)
    ensures !TimedOut(None, now)
  {
  }

  /** Once timed out, a channel that sees no activity stays timed out. */
  lemma TimedOutStaysTimedOut(idle: Option<int>, now: int, later: int)
    requires TimedOut(idle, now) && now <= later
    ensures TimedOut(idle, later)
  {
  }
}
