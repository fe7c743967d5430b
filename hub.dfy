/**
  The SimplePubSub hub object: one mutable channel map and the five
  operations `on`, `removeListener`, `emit`, `hasChannel` and
  `destroyChannel`. Each method is specified by the function of module
  PubSub that it applies to the map.
 */
module Hubs {
  import opened PubSub

  class Hub {
    /** The hub's only state: channel name to subscribers in subscription order. */
    var channels: Channels

    ghost predicate Valid()
      reads this
    {
      WellFormed(channels)
    }

    /** A new hub starts with an empty channel map. */
    constructor ()
      ensures Valid()
      ensures channels == map[]
    {
      channels := map[];
    }

    /** Subscribe `cb` to `channel`, creating the channel on first use. */
    method On(channel: Channel, cb: CallbackId)
      requires Valid()
      modifies this
      ensures Valid()
      ensures channels == Register(old(channels), channel, cb)
    {
      var subs := if channel in channels then channels[channel] else [];
      channels := channels[channel := subs + [cb]];
    }

    /** Unsubscribe every entry of `cb` from `channel`; delete the channel once empty. */
    method RemoveListener(channel: Channel, cb: CallbackId)
      requires Valid()
      modifies this
      ensures Valid()
      ensures channels == Unregister(old(channels), channel, cb)
    {
      if channel !in channels {
        return;
      }
      var subs := channels[channel];
      var kept: seq<CallbackId> := [];
      var i := 0;
      while i < |subs|
        invariant 0 <= i <= |subs|
        invariant kept == Without(subs[..i], cb)
      {
        assert subs[..i + 1][..i] == subs[..i];
        if subs[i] != cb {
          kept := kept + [subs[i]];
        }
        i := i + 1;
      }
      assert subs[..|subs|] == subs;
      if kept == [] {
        channels := channels - {channel};
      } else {
        channels := channels[channel := kept];
      }
    }

    /**
      Call every subscriber of `channel`, in subscription order, with `args`.
      The returned log stands for the calls; an unknown channel calls nothing.
     */
    method Emit(channel: Channel, args: seq<Value>) returns (calls: seq<Invocation>)
      ensures |calls| == |SubscribersOf(channels, channel)|
      ensures forall i :: 0 <= i < |calls| ==> calls[i] == Invocation(SubscribersOf(channels, channel)[i], args)
      ensures calls == Deliveries(SubscribersOf(channels, channel), args)
    {
      calls := [];
      if channel !in channels {
        return;
      }
      var subs := channels[channel];
      var i := 0;
      while i < |subs|
        invariant 0 <= i <= |subs|
        invariant calls == Deliveries(subs[..i], args)
      {
        assert subs[..i + 1][..i] == subs[..i];
        calls := calls + [Invocation(subs[i], args)];
        i := i + 1;
      }
      assert subs[..|subs|] == subs;
    }

    /** Whether `channel` exists, which under the invariant means it has a subscriber. */
    method HasChannel(channel: Channel) returns (b: bool)
      requires Valid()
      ensures b <==> SubscribersOf(channels, channel) != []
    {
      ChannelExistsIffSubscribed(channels, channel);
      b := channel in channels;
    }

    /** Remove `channel` and all its subscribers; an absent channel is left alone. */
    method DestroyChannel(channel: Channel)
      requires Valid()
      modifies this
      ensures Valid()
      ensures channels == Destroy(old(channels), channel)
    {
      channels := channels - {channel};
    }
  }

  /**
    A component that gains the hub's behaviour: it owns its own, independent
    hub, built afresh with it.
   */
  class Child {
    const hub: Hub

    constructor ()
      ensures fresh(hub)
      ensures hub.Valid() && hub.channels == map[]
    {
      hub := new Hub();
    }
  }
}
