/**
  The subscribers the SimplePubSub test cases register. Each callback's body
  updates a variable of the test's scope (a flag `hit`, a counter `count`, or
  the argument check's `same`); running the log that `emit` returns, in
  order, stands for the hub calling the closures.
 */
module Subscribers {
  import opened PubSub

  /** What a subscriber does when called. */
  datatype Body =
    | SetHit                            // hit = true
    | Increment                         // count++
    | Ignore                            // function(){}
    | CheckArgs(expected: seq<Value>)   // compares its arguments with `expected`

  /** The test-scope variables the closures write. */
  datatype Scope = Scope(hit: bool, count: nat, same: bool)

  /** `expected[k]`, or `undefined` past its end, as JavaScript indexing gives. */
  function ValueAt(expected: seq<Value>, k: nat): Value
  {
    if k < |expected| then expected[k] else Undefined
  }

  /** No received argument is strictly unequal to the expected one at its position. */
  predicate ArgsAgree(expected: seq<Value>, received: seq<Value>)
  {
    forall k :: 0 <= k < |received| ==> ValueAt(expected, k) == received[k]
  }

  /** Receiving exactly the expected arguments passes the check. */
  lemma ArgsAgreeWhenEqual(expected: seq<Value>)
    ensures ArgsAgree(expected, expected)
  {
  }

  /** Changing any one received argument makes the check fail. */
  lemma ArgsChangeObservable(expected: seq<Value>, received: seq<Value>, k: nat)
    requires k < |received| && k < |expected|
    requires received[k] != expected[k]
    ensures !ArgsAgree(expected, received)
  {
  }

  /**
    The argument-checking subscriber's loop: walk its arguments and clear
    `same` at the first position whose value differs from the expected one.
   */
  method CheckArguments(same0: bool, expected: seq<Value>, arguments: seq<Value>) returns (same: bool)
    ensures same == (same0 && ArgsAgree(expected, arguments))
  {
    same := same0;
    var cur := 0;
    while cur < |arguments|
      invariant 0 <= cur <= |arguments|
      invariant same == (same0 && forall k :: 0 <= k < cur ==> ValueAt(expected, k) == arguments[k])
    {
      var want := if cur < |expected| then expected[cur] else Undefined;
      if want != arguments[cur] {
        same := false;
      }
      cur := cur + 1;
    }
  }

  /** The effect of calling one subscriber with `args` on the test scope. */
  function Run(scope: Scope, body: Body, args: seq<Value>): Scope
  {
    match body
    case SetHit => scope.(hit := true)
    case Increment => scope.(count := scope.count + 1)
    case Ignore => scope
    case CheckArgs(expected) => scope.(same := scope.same && ArgsAgree(expected, args))
  }

  /** The body of `cb`; a callback the test did not describe does nothing. */
  function BodyOf(bodies: map<CallbackId, Body>, cb: CallbackId): Body
  {
    if cb in bodies then bodies[cb] else Ignore
  }

  /** The scope after the calls of `log`, made one after the other. */
  function Replay(scope: Scope, bodies: map<CallbackId, Body>, log: seq<Invocation>): Scope
    decreases |log|
  {
    if log == [] then scope
    else
      var last := log[|log| - 1];
      Run(Replay(scope, bodies, log[..|log| - 1]), BodyOf(bodies, last.callback), last.args)
  }

  /** Replaying one more call runs that call's body on the scope reached so far. */
  lemma ReplayAppend(scope: Scope, bodies: map<CallbackId, Body>, log: seq<Invocation>, call: Invocation)
    ensures Replay(scope, bodies, log + [call])
         == Run(Replay(scope, bodies, log), BodyOf(bodies, call.callback), call.args)
  {
  }

  /** With `a` setting `hit`, the flag ends up set iff it was set or `a` was called. */
  lemma {:induction false} HitIffCalled(scope: Scope, a: CallbackId, log: seq<Invocation>)
    ensures Replay(scope, map[a := SetHit], log).hit == (scope.hit || Received(log, a) > 0)
    decreases |log|
  {
    if log != [] {
      HitIffCalled(scope, a, log[..|log| - 1]);
    }
  }

  /** With `a` and `b` both counting, the counter grows by the calls made to either. */
  lemma {:induction false} CountIsCalls(scope: Scope, a: CallbackId, b: CallbackId, log: seq<Invocation>)
    requires a != b
    ensures Replay(scope, map[a := Increment, b := Increment], log).count
         == scope.count + Received(log, a) + Received(log, b)
    decreases |log|
  {
    if log != [] {
      CountIsCalls(scope, a, b, log[..|log| - 1]);
    }
  }

  /** Call each logged subscriber in turn, as `emit` does, on the test scope. */
  method Deliver(scope: Scope, bodies: map<CallbackId, Body>, log: seq<Invocation>) returns (after: Scope)
    ensures after == Replay(scope, bodies, log)
  {
    after := scope;
    var i := 0;
    while i < |log|
      invariant 0 <= i <= |log|
      invariant after == Replay(scope, bodies, log[..i])
    {
      assert log[..i + 1][..i] == log[..i];
      var call := log[i];
      var body := if call.callback in bodies then bodies[call.callback] else Ignore;
      match body {
        case SetHit => after := after.(hit := true);
        case Increment => after := after.(count := after.count + 1);
        case Ignore =>
        case CheckArgs(expected) =>
          var same := CheckArguments(after.same, expected, call.args);
          after := after.(same := same);
      }
      i := i + 1;
    }
    assert log[..|log|] == log;
  }
}
