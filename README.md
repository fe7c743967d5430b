# SimplePubSub in Dafny

A model of `SimplePubSub`, a small in-process publish/subscribe hub. A hub
owns one mutable map from a channel name to the ordered list of callbacks
subscribed to it. It offers five operations:

- `on` subscribes a callback and creates the channel on first use.
- `removeListener` unsubscribes a callback and deletes the channel once its list is empty.
- `emit` calls every subscriber of a channel synchronously, in subscription order, with the arguments given after the channel name.
- `hasChannel` asks whether a channel exists.
- `destroyChannel` removes a channel with all its subscribers.

The hub's implementation, `lib/SimplePubSub.js`, is not part of this model.
Its behaviour is taken from the nodeunit suite `test/SimplePubSub_test.js`.
The suite never registers one callback twice on a channel. For that case
the model removes every matching entry on `removeListener`. An emit on a
missing channel calls nothing and raises no error, as the test at lines
77-80 shows: removing the only callback deletes the channel before that
emit.

Files:

- `pubsub.dfy` (module `PubSub`): the channel map as a value. Holds the
  invariant `WellFormed`, which says a channel exists only while its list is
  non-empty. Each operation is a function on the map: `Register`,
  `Unregister`, `Destroy` and `Deliveries`. The lemmas prove the channel
  lifecycle and delivery facts.
- `hub.dfy` (module `Hubs`): class `Hub`, whose only field `channels` the
  methods update in place. Each method is specified by the `PubSub` function
  it applies. `Valid()` is the lifecycle invariant, and every method keeps it.
  `Emit` loops over the subscriber list and returns the log of invocations.
  The log stands for the calls. Class `Child` is a component that owns a
  fresh, independent hub.
- `subscribers.dfy` (module `Subscribers`): the callbacks the tests register.
  Each callback's body updates a test-scope variable (`hit`, `count` or
  `same`). `Deliver` runs an emit's log in order against that scope.
  `CheckArguments` is the argument-comparing loop of the last test. It
  includes JavaScript's reading of `undefined` past the end of the expected
  list.
- `scenarios.dfy` (module `Scenarios`): one method per test case. Each starts
  from a fresh `Child`, as `setUp` does. Its ensures clause is the test's
  expectation, derived from the general lemmas. One case states more than
  its test: 'Has an event hash' only checks with `test.ok` that the map
  exists, and `HasAnEventHash` also states that it starts empty.

Callbacks are opaque identities (`CallbackId`, a `nat`). Two distinct
JavaScript function objects get two distinct numbers. Emitted arguments are
`undefined`, `null`, booleans, integer numbers and strings (`Value`). Strict inequality `!==` on them is equality
of the datatype.

## Model

| member | source | states |
|---|---|---|
| PubSub.WellFormed | test/SimplePubSub_test.js:109-120 | the channel-lifecycle invariant: every channel in the map has a non-empty subscriber list |
| PubSub.ChannelExistsIffSubscribed | test/SimplePubSub_test.js:109-120 | under the lifecycle invariant, a channel is a key of the map exactly when it has at least one subscriber |
| PubSub.Register | test/SimplePubSub_test.js:54-63 | `on(c, cb)` makes `c` a channel, appends `cb` after the existing subscribers of `c`, leaves every other channel as it was, and keeps the lifecycle invariant |
| PubSub.Without | test/SimplePubSub_test.js:84-100 | the removed callback no longer occurs, and every other callback occurs as often as before |
| PubSub.WithoutConcat | test/SimplePubSub_test.js:84-100 | removal distributes over concatenation, so the remaining subscribers keep their relative order |
| PubSub.WithoutAbsent | test/SimplePubSub_test.js:71-83 | removing a callback that is not subscribed leaves the list unchanged |
| PubSub.WithoutSingleton | test/SimplePubSub_test.js:109-120 | removing `cb` from a one-entry list empties it exactly when that entry is `cb` |
| PubSub.WithoutEmptyIff | test/SimplePubSub_test.js:109-120 | nothing remains after removal exactly when every entry was the removed callback |
| PubSub.Unregister | test/SimplePubSub_test.js:71-120 | `removeListener(c, cb)` leaves `c` with its list minus `cb` and leaves other channels alone; `c` survives iff some entry other than `cb` remains; the invariant is kept |
| PubSub.Destroy | test/SimplePubSub_test.js:101-108 | `destroyChannel(c)` removes `c` however many subscribers it had, leaves all other channels alone, and keeps the invariant |
| PubSub.Deliveries | test/SimplePubSub_test.js:137-154 | an emit makes one call per subscriber entry, in subscription order, and each call receives exactly the emitted arguments |
| PubSub.ReceivedDeliveries | test/SimplePubSub_test.js:121-136 | one emit calls a callback as many times as it has entries on the channel |
| PubSub.EmitUnknownChannel | test/SimplePubSub_test.js:71-83 | emitting on a channel that is not in the map, such as one deleted by removing its last callback, calls nothing |
| PubSub.RegisterThenEmit | test/SimplePubSub_test.js:44-53 | after `on(c, cb)`, an emit on `c` calls the earlier subscribers as before and then `cb`, with the same arguments |
| PubSub.RegisteredIsCalledOnce | test/SimplePubSub_test.js:44-53 | a callback newly registered on a channel is called exactly once by an emit on it |
| PubSub.UnregisteredIsNotCalled | test/SimplePubSub_test.js:71-83 | after `removeListener(c, cb)`, an emit on `c` does not call `cb` |
| PubSub.UnregisterKeepsSiblings | test/SimplePubSub_test.js:84-100 | removing `cb` does not change how often an emit calls any other subscriber of the channel |
| PubSub.RegisterUnregisterInverse | test/SimplePubSub_test.js:71-83 | `removeListener(c, cb)` right after `on(c, cb)` restores the channel map exactly, including deleting a channel that `on` created |
| PubSub.DestroyThenEmit | test/SimplePubSub_test.js:101-108 | after `destroyChannel(c)`, an emit on `c` calls nothing |
| Hubs.Hub.constructor | test/SimplePubSub_test.js:40-43 | a new hub has a channel map, it is empty, and the invariant holds |
| Hubs.Hub.On | test/SimplePubSub_test.js:54-63 | updates the map in place as `Register` states and keeps the invariant |
| Hubs.Hub.RemoveListener | test/SimplePubSub_test.js:71-120 | a loop copies the entries other than `cb`, then reinstalls the list or deletes an emptied channel, as `Unregister` states |
| Hubs.Hub.Emit | test/SimplePubSub_test.js:121-154 | a loop over the subscribers returns one invocation per entry, in order, each carrying the emitted arguments; a missing channel gives none |
| Hubs.Hub.HasChannel | test/SimplePubSub_test.js:54-70 | true exactly when the channel has at least one subscriber |
| Hubs.Hub.DestroyChannel | test/SimplePubSub_test.js:101-108 | updates the map as `Destroy` states and keeps the invariant |
| Hubs.Child.constructor | test/SimplePubSub_test.js:28-35 | each child owns a freshly allocated hub with an empty channel map |
| Subscribers.ValueAt | test/SimplePubSub_test.js:142 | `args[cur]` reads the expected value at that position, and `undefined` past the end of the list |
| Subscribers.Run | test/SimplePubSub_test.js:44-154 | the effect of one call on the test scope: `hit = true` (46-48), `count++` (86-91, 123-128), the empty functions (102-103, 110-111), and the argument check (140-146) |
| Subscribers.HitIffCalled | test/SimplePubSub_test.js:44-83 | with a subscriber that sets `hit`, `hit` ends up true exactly when it was already true or the subscriber was called at least once |
| Subscribers.CountIsCalls | test/SimplePubSub_test.js:84-136 | with two counting subscribers, `count` grows by the number of calls made to either of them |
| Subscribers.CheckArguments | test/SimplePubSub_test.js:140-146 | the loop leaves `same` true iff it was true before and every received argument equals the expected one at its position (`undefined` past the expected list's end) |
| Subscribers.ArgsAgreeWhenEqual | test/SimplePubSub_test.js:148-151 | receiving exactly the expected arguments passes the check |
| Subscribers.ArgsChangeObservable | test/SimplePubSub_test.js:152-153 | changing any one argument is visible to the checking subscriber |
| Subscribers.Deliver | test/SimplePubSub_test.js:44-47 | calling the logged subscribers one after another gives the scope that replaying their bodies in order gives |
| Scenarios.HasAnEventHash | test/SimplePubSub_test.js:40-43 | a fresh child's channel map exists and is empty |
| Scenarios.CanRegisterACallback | test/SimplePubSub_test.js:44-53 | the subscriber registered on 'hi' sets `hit` when 'hi' is emitted |
| Scenarios.RegisteringCreatesAChannel | test/SimplePubSub_test.js:54-63 | `hasChannel('hi')` is true after `on('hi', …)` |
| Scenarios.NotRegisteringCreatesNoChannel | test/SimplePubSub_test.js:64-70 | `hasChannel('boo')` is false on a fresh hub |
| Scenarios.CanUnregisterACallback | test/SimplePubSub_test.js:71-83 | after `on` and `removeListener`, emitting 'hi' leaves `hit` false |
| Scenarios.UnregisterOnlyAffectsThatCallback | test/SimplePubSub_test.js:84-100 | with `cb` and `cb2` subscribed and `cb` removed, one emit leaves `count` at 1 |
| Scenarios.CanRemoveAChannel | test/SimplePubSub_test.js:101-108 | `hasChannel` is true with two subscribers and false after `destroyChannel` |
| Scenarios.RemovingTheLastCallbackDestroysAChannel | test/SimplePubSub_test.js:109-120 | `hasChannel` is true with two subscribers and false once both are removed |
| Scenarios.AllCallbacksAreCalled | test/SimplePubSub_test.js:121-136 | with two counting subscribers, one emit leaves `count` at 2 |
| Scenarios.AllArgumentsAreGiven | test/SimplePubSub_test.js:137-154 | emitting 1,2,3,4 keeps `same` true and emitting 1,2,3,3 afterwards makes it false |

## Left out

- The hub's implementation, `lib/SimplePubSub.js`, is not part of this model. Its operations are modelled from the suite.
- Prototype inheritance and the `instanceof` check (test lines 29-33 and 36-39) are JavaScript object plumbing. `Child` owns a fresh hub instead, and the suite's calls go through `child.hub`.
- The nodeunit harness (`test.done`, `test.equal`, `setUp`'s `done`) is test-runner I/O. Each expectation is an ensures clause instead.
- Running JavaScript closures and the dynamic `arguments` object are out of scope. Callbacks are identities. `Emit` returns a log of invocations, and the effect of a call on the test's variables is the `Body` datatype.
- A subscriber that throws during `emit` is not modelled. An uncaught throw inside emit's delivery loop would end the loop, so the later subscribers of that emit would not be called.
- Subscribers that add or remove listeners during an emit are not modelled. Callbacks cannot reach the hub in the model, so an emit always delivers to the list as it stood when the emit began.
- Registering the same callback twice is not exercised by the suite. The model keeps both entries, and removal drops every matching entry. No scenario depends on this choice. Three statements of the model do: `Without`'s clause that `cb` no longer occurs, `Unregister`'s clause on when the channel survives, and `UnregisteredIsNotCalled`.
- Hubs.Hub.Emit: emitted values are `undefined`, `null`, booleans, integer numbers and strings. Floating-point numbers (including `NaN !== NaN`), symbols, bigints, and object arguments compared by reference are not modelled.
- Channel names are strings only. JavaScript's coercion of other key values to property names is not modelled.
