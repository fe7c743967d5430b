/**
  The SimplePubSub test cases, one method each. Every case starts from a
  fresh `Child` (the suite's setUp), drives its hub, calls the subscribers
  through the log `emit` returns, and returns the value the test compares.
  Each ensures clause is the test's expectation, derived from the general
  properties of modules PubSub and Subscribers.
 */
module Scenarios {
  import opened PubSub
  import opened Hubs
  import opened Subscribers

  const Start := Scope(false, 0, true)

  /**
    'Has an event hash': a fresh child owns a channel map. The test only
    checks that the map exists; this also states that it starts empty.
   */
  method HasAnEventHash() returns (events: Channels)
    ensures events == map[]
  {
    var child := new Child();
    events := child.hub.channels;
  }

  /** 'Can register a callback': the subscriber that sets `hit` is called. */
  method CanRegisterACallback() returns (hit: bool)
    ensures hit
  {
    var child := new Child();
    var cb := 1;
    ghost var m0 := child.hub.channels;
    child.hub.On("hi", cb);
    var calls := child.hub.Emit("hi", []);
    RegisteredIsCalledOnce(m0, "hi", cb, []);
    HitIffCalled(Start, cb, calls);
    var scope := Deliver(Start, map[cb := SetHit], calls);
    hit := scope.hit;
  }

  /** 'Registering a callback creates a channel'. */
  method RegisteringCreatesAChannel() returns (hit: bool)
    ensures hit
  {
    var child := new Child();
    child.hub.On("hi", 1);
    hit := child.hub.HasChannel("hi");
  }

  /** 'Not registering a callback does not create a channel'. */
  method NotRegisteringCreatesNoChannel() returns (hit: bool)
    ensures !hit
  {
    var child := new Child();
    hit := child.hub.HasChannel("boo");
  }

  /**
    'Can unregister a callback': after removal, emit does not call it. The
    removal deletes the channel, so this emit is on a missing channel.
   */
  method CanUnregisterACallback() returns (hit: bool)
    ensures !hit
  {
    var child := new Child();
    var cb := 1;
    ghost var m0 := child.hub.channels;
    child.hub.On("hi", cb);
    ghost var m1 := child.hub.channels;
    child.hub.RemoveListener("hi", cb);
    RegisterUnregisterInverse(m0, "hi", cb);
    assert "hi" !in child.hub.channels;
    var calls := child.hub.Emit("hi", []);
    UnregisteredIsNotCalled(m1, "hi", cb, []);
    HitIffCalled(Start, cb, calls);
    var scope := Deliver(Start, map[cb := SetHit], calls);
    hit := scope.hit;
  }

  /** 'Unregistering a callback only affects that callback': one call, to `cb2`. */
  method UnregisterOnlyAffectsThatCallback() returns (count: nat)
    ensures count == 1
  {
    var child := new Child();
    var cb, cb2 := 1, 2;
    child.hub.On("hi", cb);
    ghost var m1 := child.hub.channels;
    child.hub.On("hi", cb2);
    ghost var m2 := child.hub.channels;
    child.hub.RemoveListener("hi", cb);
    var calls := child.hub.Emit("hi", []);
    RegisteredIsCalledOnce(m1, "hi", cb2, []);
    UnregisterKeepsSiblings(m2, "hi", cb, cb2, []);
    UnregisteredIsNotCalled(m2, "hi", cb, []);
    CountIsCalls(Start, cb, cb2, calls);
    var scope := Deliver(Start, map[cb := Increment, cb2 := Increment], calls);
    count := scope.count;
  }

  /** 'Can remove a channel': two subscribers, then destroyChannel. */
  method CanRemoveAChannel() returns (before: bool, after: bool)
    ensures before && !after
  {
    var child := new Child();
    child.hub.On("hi", 1);
    child.hub.On("hi", 2);
    before := child.hub.HasChannel("hi");
    ghost var m := child.hub.channels;
    child.hub.DestroyChannel("hi");
    assert child.hub.channels == Destroy(m, "hi");
    after := child.hub.HasChannel("hi");
  }

  /** 'Removing the last callback destroys a channel'. */
  method RemovingTheLastCallbackDestroysAChannel() returns (before: bool, after: bool)
    ensures before && !after
  {
    var child := new Child();
    var cb1, cb2 := 1, 2;
    child.hub.On("hi", cb1);
    child.hub.On("hi", cb2);
    before := child.hub.HasChannel("hi");
    assert SubscribersOf(child.hub.channels, "hi") == [cb1] + [cb2];
    child.hub.RemoveListener("hi", cb1);
    WithoutConcat([cb1], [cb2], cb1);
    WithoutSingleton(cb1, cb1);
    WithoutSingleton(cb2, cb1);
    assert SubscribersOf(child.hub.channels, "hi") == [cb2];
    child.hub.RemoveListener("hi", cb2);
    WithoutSingleton(cb2, cb2);
    after := child.hub.HasChannel("hi");
  }

  /** 'All callbacks are called when an emit is thrown': two subscribers, two calls. */
  method AllCallbacksAreCalled() returns (count: nat)
    ensures count == 2
  {
    var child := new Child();
    var cb1, cb2 := 1, 2;
    var bodies := map[cb1 := Increment, cb2 := Increment];
    child.hub.On("hi", cb1);
    ghost var m1 := child.hub.channels;
    child.hub.On("hi", cb2);
    var calls := child.hub.Emit("hi", []);
    RegisteredIsCalledOnce(m1, "hi", cb2, []);
    ReceivedDeliveries(SubscribersOf(child.hub.channels, "hi"), [], cb1);
    assert multiset([cb1] + [cb2])[cb1] == 1;
    CountIsCalls(Start, cb1, cb2, calls);
    var scope := Deliver(Start, bodies, calls);
    count := scope.count;
  }

  /**
    'All arguments passed after the channel are given to subscribers':
    emit 'hi', 1, 2, 3, 4 keeps `same`; emit 'hi', 1, 2, 3, 3 clears it.
   */
  method AllArgumentsAreGiven() returns (first: bool, second: bool)
    ensures first && !second
  {
    var args := [Number(1), Number(2), Number(3), Number(4)];
    var child := new Child();
    var cb1 := 1;
    var bodies := map[cb1 := CheckArgs(args)];
    child.hub.On("hi", cb1);
    var calls := child.hub.Emit("hi", args);
    assert calls == [] + [Invocation(cb1, args)];
    ReplayAppend(Start, bodies, [], Invocation(cb1, args));
    var scope := Deliver(Start, bodies, calls);
    ArgsAgreeWhenEqual(args);
    first := scope.same;
    var changed := [Number(1), Number(2), Number(3), Number(3)];
    calls := child.hub.Emit("hi", changed);
    assert calls == [] + [Invocation(cb1, changed)];
    ReplayAppend(scope, bodies, [], Invocation(cb1, changed));
    scope := Deliver(scope, bodies, calls);
    ArgsChangeObservable(args, changed, 3);
    second := scope.same;
  }
}
