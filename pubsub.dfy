/**
  The channel map of a SimplePubSub hub, as a value, and the operations on it.

  A hub owns one map from channel name to the ordered list of callbacks
  subscribed to it. Every operation of the hub is a direct update or query
  of that map; this module states each one as a function on the map and
  proves the channel-lifecycle facts about them. The class in module Hubs
  applies these functions to its field.
 */
module PubSub {

  type Channel = string

  /** A subscriber callback, identified only by its identity. */
  type CallbackId = nat

  /** A value passed after the channel name to `emit` (`undefined`, `null`, a boolean, an integer number or a string). */
  datatype Value = Undefined | Null | Bool(b: bool) | Number(n: int) | Str(s: string)

  /** One synchronous call of a subscriber, with the arguments it was given. */
  datatype Invocation = Invocation(callback: CallbackId, args: seq<Value>)

  type Channels = map<Channel, seq<CallbackId>>

  /** The channel-lifecycle invariant: a channel exists only while it has a subscriber. */
  ghost predicate WellFormed(m: Channels)
  {
    forall c :: c in m ==> m[c] != []
  }

  /** The callbacks subscribed to `c`, in subscription order; none for an absent channel. */
  function SubscribersOf(m: Channels, c: Channel): seq<CallbackId>
  {
    if c in m then m[c] else []
  }

  /** Under the invariant, a channel exists exactly when it has subscribers. */
  lemma ChannelExistsIffSubscribed(m: Channels, c: Channel)
    requires WellFormed(m)
    ensures c in m <==> SubscribersOf(m, c) != []
  {
  }

  // ---------------------------------------------------------------- on

  /** `on(c, cb)`: append `cb` to the list of `c`, creating the channel if absent. */
  function Register(m: Channels, c: Channel, cb: CallbackId): (r: Channels)
    ensures r.Keys == m.Keys + {c}
    ensures SubscribersOf(r, c) == SubscribersOf(m, c) + [cb]
    ensures forall d :: d != c ==> SubscribersOf(r, d) == SubscribersOf(m, d)
    ensures WellFormed(m) ==> WellFormed(r)
  {
    m[c := SubscribersOf(m, c) + [cb]]
  }

  // ---------------------------------------------------------------- removeListener

  /** The list `s` with every entry equal to `cb` dropped, the rest in their order. */
  function Without(s: seq<CallbackId>, cb: CallbackId): (r: seq<CallbackId>)
    ensures cb !in r
    ensures forall x :: x != cb ==> multiset(r)[x] == multiset(s)[x]
    decreases |s|
  {
    if s == [] then []
    else
      var init, last := s[..|s| - 1], s[|s| - 1];
      assert s == init + [last];
      var rest := Without(init, cb);
      if last == cb then rest else rest + [last]
  }

  /** Dropping entries distributes over concatenation, so the survivors keep their order. */
  lemma {:induction false} WithoutConcat(a: seq<CallbackId>, b: seq<CallbackId>, cb: CallbackId)
    ensures Without(a + b, cb) == Without(a, cb) + Without(b, cb)
    decreases |b|
  {
    if b == [] {
      assert a + b == a;
    } else {
      var init, last := b[..|b| - 1], b[|b| - 1];
      assert (a + b)[..|a + b| - 1] == a + init;
      assert (a + b)[|a + b| - 1] == last;
      WithoutConcat(a, init, cb);
    }
  }

  /** Removing a callback that is not subscribed changes nothing. */
  lemma {:induction false} WithoutAbsent(s: seq<CallbackId>, cb: CallbackId)
    requires cb !in s
    ensures Without(s, cb) == s
    decreases |s|
  {
    if s != [] {
      var init := s[..|s| - 1];
      assert s == init + [s[|s| - 1]];
      WithoutAbsent(init, cb);
    }
  }

  /** Removing from a one-entry list drops that entry exactly when it is `cb`. */
  lemma WithoutSingleton(x: CallbackId, cb: CallbackId)
    ensures Without([x], cb) == if x == cb then [] else [x]
  {
  }

  /** Nothing survives the removal exactly when every entry was `cb`. */
  lemma {:induction false} WithoutEmptyIff(s: seq<CallbackId>, cb: CallbackId)
    ensures Without(s, cb) == [] <==> forall i :: 0 <= i < |s| ==> s[i] == cb
    decreases |s|
  {
    if s != [] {
      var init := s[..|s| - 1];
      WithoutEmptyIff(init, cb);
      assert forall i :: 0 <= i < |init| ==> init[i] == s[i];
    }
  }

  /** `removeListener(c, cb)`: drop `cb` from `c`; a channel left empty is deleted. */
  function Unregister(m: Channels, c: Channel, cb: CallbackId): (r: Channels)
    ensures SubscribersOf(r, c) == Without(SubscribersOf(m, c), cb)
    ensures forall d :: d != c ==> SubscribersOf(r, d) == SubscribersOf(m, d)
    ensures r.Keys <= m.Keys
    ensures c in r <==> exists i :: 0 <= i < |SubscribersOf(m, c)| && SubscribersOf(m, c)[i] != cb
    ensures WellFormed(m) ==> WellFormed(r)
  {
    WithoutEmptyIff(SubscribersOf(m, c), cb);
    if c !in m then m
    else
      var rest := Without(m[c], cb);
      if rest == [] then m - {c} else m[c := rest]
  }

  // ---------------------------------------------------------------- destroyChannel

  /** `destroyChannel(c)`: drop `c` with all its subscribers. */
  function Destroy(m: Channels, c: Channel): (r: Channels)
    ensures r.Keys == m.Keys - {c}
    ensures SubscribersOf(r, c) == []
    ensures forall d :: d != c ==> SubscribersOf(r, d) == SubscribersOf(m, d)
    ensures WellFormed(m) ==> WellFormed(r)
  {
    m - {c}
  }

  // ---------------------------------------------------------------- emit

  /** The calls one `emit` makes: each subscriber in order, each given exactly `args`. */
  function Deliveries(subs: seq<CallbackId>, args: seq<Value>): (r: seq<Invocation>)
    ensures |r| == |subs|
    ensures forall i :: 0 <= i < |r| ==> r[i] == Invocation(subs[i], args)
    decreases |subs|
  {
    if subs == [] then []
    else Deliveries(subs[..|subs| - 1], args) + [Invocation(subs[|subs| - 1], args)]
  }

  /** How many of the calls in `log` went to `cb`. */
  function Received(log: seq<Invocation>, cb: CallbackId): nat
    decreases |log|
  {
    if log == [] then 0
    else Received(log[..|log| - 1], cb) + (if log[|log| - 1].callback == cb then 1 else 0)
  }

  /** One emit calls each subscriber once per entry it has on the channel. */
  lemma {:induction false} ReceivedDeliveries(subs: seq<CallbackId>, args: seq<Value>, cb: CallbackId)
    ensures Received(Deliveries(subs, args), cb) == multiset(subs)[cb]
    decreases |subs|
  {
    if subs != [] {
      var init, last := subs[..|subs| - 1], subs[|subs| - 1];
      assert subs == init + [last];
      var log := Deliveries(subs, args);
      assert log[..|log| - 1] == Deliveries(init, args);
      ReceivedDeliveries(init, args, cb);
    }
  }

  // ---------------------------------------------------------------- properties

  /** Emitting on a channel nobody subscribed to calls nothing. */
  lemma EmitUnknownChannel(m: Channels, c: Channel, args: seq<Value>)
    requires c !in m
    ensures Deliveries(SubscribersOf(m, c), args) == []
  {
  }

  /** After `on(c, cb)`, an emit on `c` calls the earlier subscribers, then `cb`. */
  lemma RegisterThenEmit(m: Channels, c: Channel, cb: CallbackId, args: seq<Value>)
    ensures Deliveries(SubscribersOf(Register(m, c, cb), c), args)
         == Deliveries(SubscribersOf(m, c), args) + [Invocation(cb, args)]
  {
  }

  /** A newly registered callback is called exactly once per emit. */
  lemma RegisteredIsCalledOnce(m: Channels, c: Channel, cb: CallbackId, args: seq<Value>)
    requires cb !in SubscribersOf(m, c)
    ensures Received(Deliveries(SubscribersOf(Register(m, c, cb), c), args), cb) == 1
  {
    ReceivedDeliveries(SubscribersOf(Register(m, c, cb), c), args, cb);
    assert multiset(SubscribersOf(m, c))[cb] == 0;
  }

  /** After `removeListener(c, cb)`, an emit on `c` no longer calls `cb`. */
  lemma UnregisteredIsNotCalled(m: Channels, c: Channel, cb: CallbackId, args: seq<Value>)
    ensures Received(Deliveries(SubscribersOf(Unregister(m, c, cb), c), args), cb) == 0
  {
    ReceivedDeliveries(SubscribersOf(Unregister(m, c, cb), c), args, cb);
  }

  /** Removing `cb` leaves each sibling subscriber's calls as they were. */
  lemma UnregisterKeepsSiblings(m: Channels, c: Channel, cb: CallbackId, other: CallbackId, args: seq<Value>)
    requires other != cb
    ensures Received(Deliveries(SubscribersOf(Unregister(m, c, cb), c), args), other)
         == Received(Deliveries(SubscribersOf(m, c), args), other)
  {
    ReceivedDeliveries(SubscribersOf(Unregister(m, c, cb), c), args, other);
    ReceivedDeliveries(SubscribersOf(m, c), args, other);
  }

  /** `removeListener` undoes `on` for a callback not already on the channel. */
  lemma RegisterUnregisterInverse(m: Channels, c: Channel, cb: CallbackId)
    requires WellFormed(m)
    requires cb !in SubscribersOf(m, c)
    ensures Unregister(Register(m, c, cb), c, cb) == m
  {
    var s := SubscribersOf(m, c);
    WithoutConcat(s, [cb], cb);
    WithoutSingleton(cb, cb);
    WithoutAbsent(s, cb);
  }

  /** After `destroyChannel(c)`, an emit on `c` calls nothing. */
  lemma DestroyThenEmit(m: Channels, c: Channel, args: seq<Value>)
    ensures Deliveries(SubscribersOf(Destroy(m, c), c), args) == []
  {
  }
}
