/** The handler every server channel carries at the front of its pipeline: it keeps the channel's
    last-activity timestamp (ATTR_IDLE) that the sweep compares against the timeout. The clock is
    the parameter `now`. */
module ServerCommon {
  import opened Base
  import opened Constants
  import opened Channels

  /** `write`: stamp the channel with `now`, then pass the message on unchanged. The stamp is
      written through `attr(ATTR_IDLE).get()`: the `attr` call creates the attribute when it is
      missing, and a channel whose attribute holds no timestamp then throws NullPointerException
      and writes nothing, keeping the attribute it just created. */
  method Write(net: Net, ch: ChannelId, msg: Msg, now: int) returns (r: Outcome)
    modifies net
    ensures net.IdleOf(ch) != old(net.IdleOf(ch)) ==> net.IdleOf(ch) == Some(now)
    ensures old(net.IdleOf(ch)).None? ==>
              && r == Threw(NullPointer)
              && net.State() == old(net.State()).(idle := old(net.idle)[ch := None])
    ensures old(net.IdleOf(ch)).Some? ==>
              && r == Done
              && net.State() == old(net.State()).(idle := old(net.idle)[ch := Some(now)],
                                                  writes := old(net.writes) + [Frame(ch, msg)])
    ensures old(net.Valid()) ==> net.Valid()
  {
    if ch !in net.idle || net.idle[ch].None? {
      net.idle := net.idle[ch := None];
      return Threw(NullPointer);
    }
    net.idle := net.idle[ch := Some(now)];
    net.writes := net.writes + [Frame(ch, msg)];
    r := Done;
  }

  /** `userEventTriggered`: the ATTR_IDLE key itself stamps the channel with `now`, through the
      same `attr(ATTR_IDLE).get()` as `write`; every event, that one included, is then passed
      on. Any other event leaves the timestamp alone. */
  method UserEventTriggered(net: Net, ch: ChannelId, evt: Event, now: int) returns (r: Outcome)
    modifies net
    ensures evt == IdleKey && old(net.IdleOf(ch)).None? ==>
              && r == Threw(NullPointer)
              && net.State() == old(net.State()).(idle := old(net.idle)[ch := None])
    ensures evt == IdleKey && old(net.IdleOf(ch)).Some? ==>
              && r == Done
              && net.State() == old(net.State()).(idle := old(net.idle)[ch := Some(now)],
                                                  fired := old(net.fired) + [Fired(ch, evt)])
    ensures evt != IdleKey ==>
              r == Done && net.State() == old(net.State()).(fired := old(net.fired) + [Fired(ch, evt)])
    ensures old(net.Valid()) ==> net.Valid()
  {
    if evt == IdleKey {
      if ch !in net.idle || net.idle[ch].None? {
        net.idle := net.idle[ch := None];
        return Threw(NullPointer);
      }
      net.idle := net.idle[ch := Some(now)];
    }
    net.fired := net.fired + [Fired(ch, evt)];
    r := Done;
  }
}
