/** The Netty channels of one process, as the tunnel handlers see them: the attributes they
    attach to channels (pair, bound, session id, idle timestamp), the read requests they
    issue, the messages they write, the events they pass on and the channels they close.
    Writes and reads complete asynchronously in Netty; here a write is appended to `writes`
    when issued and its completion is the separate step `WriteComplete`. */
module Channels {
  import opened Base

  class Net {
    var pair: map<ChannelId, ChannelId>   // ATTR_PAIR
    var bound: set<ChannelId>             // ATTR_BOUND
    var ids: map<ChannelId, Option<long>> // ATTR_ID; None: created by attr() but never set
    var idle: map<ChannelId, Option<int>> // ATTR_IDLE; None: created by attr() but never set
    var readLog: seq<ChannelId>             // every read() request, in order
    var readPending: set<ChannelId>       // legs whose requested read has not yet delivered a message
    var writePending: set<ChannelId>      // legs whose last message is still being written to the peer
    var writes: seq<Frame>                // every writeAndFlush, in order
    var fired: seq<Fired>                 // events passed on along a pipeline
    var closed: set<ChannelId>            // channels closed so far

    /** Pairing is symmetric and never pairs a channel with itself. */
    ghost predicate Paired()
      reads this
    {
      Symmetric(pair)
    }

    /** Backpressure: a leg with a message in flight to its peer has no read outstanding,
        so each direction of a pair holds at most one message at a time. */
    ghost predicate Backpressure()
      reads this
    {
      writePending <= pair.Keys && readPending !! writePending
    }

    ghost predicate Valid()
      reads this
    {
      Paired() && bound == pair.Keys && Backpressure()
    }

    constructor ()
      ensures Valid()
      ensures pair == map[] && bound == {} && ids == map[] && idle == map[]
      ensures readLog == [] && readPending == {} && writePending == {}
      ensures writes == [] && fired == [] && closed == {}
    {
      pair, bound, ids, idle := map[], {}, map[], map[];
      readLog, readPending, writePending := [], {}, {};
      writes, fired, closed := [], [], {};
    }

    /** Every field at once, so that a contract can say which of them a call changes. */
    ghost function State(): NetState
      reads this
    {
      NetState(pair, bound, ids, idle, readLog, readPending, writePending, writes, fired, closed)
    }

    /** The idle timestamp attached to a channel, if the attribute exists and holds one. */
    function IdleOf(ch: ChannelId): (t: Option<int>)
      reads this
      ensures t.Some? <==> ch in idle && idle[ch].Some?
      ensures t.Some? ==> t == idle[ch]
    {
      if ch in idle then idle[ch] else None
    }

    /** `Constants.bindChannels`: mark both channels bound, point each at the other and
        request one read on each, backend first. Pairing two fresh channels keeps `Valid`. */
    method BindChannels(backend: ChannelId, incoming: ChannelId)
      modifies this
      ensures State() == old(State()).(pair := old(pair)[backend := incoming][incoming := backend],
                                        bound := old(bound) + {backend, incoming},
                                        readLog := old(readLog) + [backend, incoming],
                                        readPending := old(readPending) + {backend, incoming})
      ensures old(Valid()) && backend != incoming && backend !in old(pair) && incoming !in old(pair)
              ==> Valid() && pair[backend] == incoming && pair[incoming] == backend
    {
      if Valid() && backend != incoming && backend !in pair && incoming !in pair {
        BindKeepsSymmetric(pair, backend, incoming);
      }
      bound := bound + {backend, incoming};
      pair := pair[backend := incoming][incoming := backend];
      readLog := readLog + [backend, incoming];
      readPending := readPending + {backend, incoming};
    }

    /** The paired branch of every transport handler's `channelRead`: write the message,
        unchanged, to the peer. The read that delivered it is used up, and the source leg is
        not read again here: that waits for `WriteComplete`. */
    method Forward(source: ChannelId, msg: Msg)
      requires source in pair
      modifies this
      ensures var next := After(old(pair), old(readPending), old(writePending), Deliver(source));
              State() == old(State()).(writes := old(writes) + [Frame(old(pair)[source], msg)],
                                       readPending := next.0, writePending := next.1)
      ensures old(Valid()) ==> Valid()
    {
      writes := writes + [Frame(pair[source], msg)];
      readPending := readPending - {source};
      writePending := writePending + {source};
    }

    /** `DO_READ_HANDLER`: when the write to `written` completes, request a read on the pair of
        `written`, the leg the message came from. A channel without a pair is left alone. */
    method WriteComplete(written: ChannelId)
      modifies this
      ensures var next := After(old(pair), old(readPending), old(writePending), Complete(written));
              State() == old(State()).(readLog := if written in old(pair) then old(readLog) + [old(pair)[written]]
                                                  else old(readLog),
                                       readPending := next.0, writePending := next.1)
      ensures old(Valid()) ==> Valid()
    {
      if written in pair {
        var source := pair[written];
        readLog := readLog + [source];
        readPending := readPending + {source};
        writePending := writePending - {source};
      }
    }

    /** `channelUnregistered` of the transport handlers: close the peer of a paired channel;
        an unpaired channel closes nothing else. */
    method ClosePeer(ch: ChannelId)
      modifies this
      ensures State() == old(State()).(closed := if ch in old(pair) then old(closed) + {old(pair)[ch]}
                                                 else old(closed))
      ensures old(Valid()) ==> Valid()
    {
      if ch in pair {
        closed := closed + {pair[ch]};
      }
    }

    /** The relaying `channelRead` of the frontend and client transport handlers: a read before
        pairing throws `IllegalStateException`; after pairing the message goes to the peer. */
    method Relay(ch: ChannelId, msg: Msg) returns (r: Outcome)
      modifies this
      ensures ch !in old(pair) ==> r == Threw(IllegalState) && State() == old(State())
      ensures ch in old(pair) ==>
                var next := After(old(pair), old(readPending), old(writePending), Deliver(ch));
                && r == Done
                && State() == old(State()).(writes := old(writes) + [Frame(old(pair)[ch], msg)],
                                            readPending := next.0, writePending := next.1)
      ensures old(Valid()) ==> Valid()
    {
      if ch !in pair {
        return Threw(IllegalState);
      }
      Forward(ch, msg);
      r := Done;
    }
  }

  /** Pairing is symmetric and never pairs a channel with itself. */
  ghost predicate Symmetric(pair: map<ChannelId, ChannelId>)
  {
    forall c :: c in pair ==> pair[c] != c && pair[c] in pair && pair[pair[c]] == c
  }

  /** Pairing two distinct channels that have no pair yet keeps pairing symmetric. */
  lemma BindKeepsSymmetric(pair: map<ChannelId, ChannelId>, a: ChannelId, b: ChannelId)
    requires Symmetric(pair) && a != b && a !in pair && b !in pair
    ensures Symmetric(pair[a := b][b := a])
  {
    var q := pair[a := b][b := a];
    forall c | c in q
      ensures q[c] != c && q[c] in q && q[q[c]] == c
    {
      if c != a && c != b {
        assert q[c] == pair[c] && pair[c] != a && pair[c] != b;
      }
    }
  }

  datatype NetState = NetState(pair: map<ChannelId, ChannelId>, bound: set<ChannelId>,
                               ids: map<ChannelId, Option<long>>, idle: map<ChannelId, Option<int>>,
                               readLog: seq<ChannelId>, readPending: set<ChannelId>,
                               writePending: set<ChannelId>, writes: seq<Frame>,
                               fired: seq<Fired>, closed: set<ChannelId>)

  /** One relay step: a paired leg delivers the message its read produced (`Forward`), or the
      write to a channel completes (`WriteComplete`). */
  datatype Step = Deliver(leg: ChannelId) | Complete(written: ChannelId)

  /** The legs with a read outstanding and the legs with a write in flight after one step, from
      those before it. */
  function After(pair: map<ChannelId, ChannelId>, reading: set<ChannelId>, writing: set<ChannelId>, s: Step)
    : (r: (set<ChannelId>, set<ChannelId>))
  {
    match s
    case Deliver(leg) =>
      if leg in pair then (reading - {leg}, writing + {leg}) else (reading, writing)
    case Complete(written) =>
      if written in pair then (reading + {pair[written]}, writing - {pair[written]}) else (reading, writing)
  }

  /** The legs with a read outstanding and the legs with a write in flight after a run of steps. */
  function Run(pair: map<ChannelId, ChannelId>, reading: set<ChannelId>, writing: set<ChannelId>, steps: seq<Step>)
    : (r: (set<ChannelId>, set<ChannelId>))
    decreases |steps|
  {
    if steps == [] then (reading, writing)
    else
      var next := After(pair, reading, writing, steps[0]);
      Run(pair, next.0, next.1, steps[1..])
  }

  /** However the relay's deliveries and write completions interleave, no leg of a pair ever
      has a read outstanding while its previous message is still being written. */
  lemma {:induction false} RunKeepsBackpressure(pair: map<ChannelId, ChannelId>, reading: set<ChannelId>,
                                                writing: set<ChannelId>, steps: seq<Step>)
    requires writing <= pair.Keys && reading !! writing
    ensures var r := Run(pair, reading, writing, steps); r.1 <= pair.Keys && r.0 !! r.1
    decreases |steps|
  {
    if steps != [] {
      var next := After(pair, reading, writing, steps[0]);
      RunKeepsBackpressure(pair, next.0, next.1, steps[1..]);
    }
  }
}
