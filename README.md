# Larium state machine and event dispatcher, in Dafny

This project models the core of the Larium PHP state-machine library. It has two parts.

- **The finite-state machine** (`StateMachines.StateMachine`).
  - It keeps two registries: states and transitions, both keyed by name.
  - It tracks a current state and reads and writes the lifecycle name of an external *stateful* object.
  - `Initialize` resolves the current state from that object, or from the first state of type `initial`.
  - `Apply` checks a transition and commits it. It then announces the move on an embedded event dispatcher.
- **The event dispatcher** (`EventDispatching.EventDispatcher`).
  - For every event name it keeps a PHP array `priority => listeners`.
  - `Dispatch` sorts that array by priority (PHP `ksort`, in place).
  - It then calls the listeners in ascending priority, and in registration order within one priority.

How the model maps the PHP code:

- States and the stateful object are classes. The source mutates them through shared references.
  - `State.transitions` is an appended `seq<string>`.
  - `Stateful.finiteState` is an `Option<string>`.
- A transition is an immutable datatype.
- The machine's state registry is a map plus the sequence of names in insertion order. A PHP array is an ordered map, and overwriting a key keeps its place.
- A dispatcher's `PriorityTable` is a PHP array: an ordered key list plus a map of buckets.
- Listeners are opaque ids. Each call of a listener is appended as a `Call(listener, event, eventName, dispatcher)` to the dispatcher's `invoked` log. This lets the order of calls be stated exactly.
- Exceptions are `Error` values returned in `Result` or `Outcome`:
  - `UnknownState`, `UnknownTransition`, `NotInitialized` and `IllegalTransition` are the source's `StateException`s;
  - `NoInitialState` is its `StatefulException`.

Modules:

- `Wrappers`: Option, Result, Outcome.
- `Transitions`: the Transition datatype.
- `States`: the State class.
- `Statefuls`: the stateful object.
- `EventDispatching`: the dispatcher, its schedule and its sorting.
- `StateMachines`: the machine.
- `Scenarios`: small clients that replay some of the repository's unit tests; each row below names the test it follows. Their outcomes follow from the contracts. The tests that are not replayed are listed under "## Left out".

The state-name registry is `stateOrder` plus `states`. `Consistent()` states the registry invariants that every operation keeps:

- the key sets agree;
- names are not repeated;
- every entry is filed under its own name;
- a current state exists once the machine is initialized.

## Model

| member | source | states |
|---|---|---|
| EventDispatching.EventDispatcher.constructor | src/EventDispatcher/EventDispatcher.php:12 | a new dispatcher has no listeners and has made no calls |
| EventDispatching.EventDispatcher.EventExists | src/EventDispatcher/EventDispatcher.php:40-43 | true exactly when some bucket of the event name holds a listener, i.e. a listener was added under it |
| EventDispatching.EventDispatcher.AddListener | src/EventDispatcher/EventDispatcher.php:14-22 | appends the listener at the end of bucket (event, priority) and leaves every other bucket unchanged; returns the dispatcher itself; a new name gets a one-priority table and a new priority is placed last in the key order |
| EventDispatching.EventDispatcher.Dispatch | src/EventDispatcher/EventDispatcher.php:24-38 | returns the given event, or a new base event when none is given; replaces only this name's key order by its sorted form; appends exactly one call per registration of the name, in schedule order, each with the returned event, the name and the dispatcher |
| EventDispatching.EventDispatcher.InvokeAll | src/EventDispatcher/EventDispatcher.php:30-34 | the outer loop: visiting priorities in the given order appends the calls of every visited bucket, each bucket in full and in turn |
| EventDispatching.EventDispatcher.InvokeBucket | src/EventDispatcher/EventDispatcher.php:31-33 | the inner loop: appends one call per listener of the bucket, in registration order |
| EventDispatching.EventDispatcher.DispatchOrderExact | src/EventDispatcher/EventDispatcher.php:28-34 | a registration is invoked by dispatching a name iff it is stored in that name's buckets: so never a listener of another name, and nothing for a name without listeners |
| EventDispatching.SortKeys | src/EventDispatcher/EventDispatcher.php:29 | `ksort` on the priorities: the result is strictly ascending and holds exactly the keys given |
| EventDispatching.Insert | src/EventDispatcher/EventDispatcher.php:29 | inserting a new key into a strictly ascending key list keeps it strictly ascending and adds exactly that key |
| EventDispatching.AscendingUnique | src/EventDispatcher/EventDispatcher.php:29 | two strictly ascending lists with the same elements are equal, so the sorted order of the keys is unique |
| EventDispatching.SortedTableValid | src/EventDispatcher/EventDispatcher.php:29 | sorting the keys of a well-formed priority table leaves it well formed |
| EventDispatching.FlattenSnoc | src/EventDispatcher/EventDispatcher.php:30-34 | visiting one more priority appends exactly that bucket's registrations |
| EventDispatching.FlattenAt | src/EventDispatcher/EventDispatcher.php:30-34 | every registration visited comes from a visited priority and is stored at its place in the buckets |
| EventDispatching.FlattenComplete | src/EventDispatcher/EventDispatcher.php:30-34 | every stored registration of a visited priority is visited |
| EventDispatching.FlattenOrdered | src/EventDispatcher/EventDispatcher.php:30-34 | visiting priorities in ascending order yields registrations in firing order |
| EventDispatching.ScheduleExact | src/EventDispatcher/EventDispatcher.php:28-34 | the dispatch schedule of a table contains a registration iff the table stores it |
| EventDispatching.ScheduleOrdered | src/EventDispatcher/EventDispatcher.php:29-34 | the schedule is in ascending priority, and in registration order within a priority |
| EventDispatching.ScheduleDistinct | src/EventDispatcher/EventDispatcher.php:30-34 | no registration is invoked twice in one dispatch |
| States.State.constructor | src/StateMachine/State.php:15-21 | a new state has the given name and type and no outgoing transitions; the type defaults to `normal` |
| States.State.AddTransition | src/StateMachine/State.php:38-41 | the outgoing list becomes the old list followed by the name, without deduplication |
| States.State.IsInitial | src/StateMachine/State.php:28-31 | true exactly when the state's type is `initial` |
| States.State.IsNormal | src/StateMachine/State.php:33-36 | true exactly when the state's type is `normal` |
| States.TypePredicatesExclusive | src/StateMachine/State.php:28-36 | `IsInitial` holds iff the type is `initial`, and `IsNormal` iff it is `normal`; they never both hold, and neither holds for a `final` state |
| Statefuls.Stateful.constructor | tests/StateMachine/MockStateful.php:23-26 | the stateful object holds the given name, or none, and has not been written |
| Statefuls.Stateful.SetFiniteState | tests/StateMachine/MockStateful.php:33-36 | the object now holds the name, and the write is logged once |
| StateMachines.Error.IsStatefulException | src/StateMachine/StateMachine.php:62 | only the missing initial state is a StatefulException; the lookup, initialization and legality errors (lines 81, 109, 118, 129) are StateExceptions |
| StateMachines.StateMachine.constructor | src/StateMachine/StateMachine.php:27-31 | a new machine has empty registries, is not initialized, and owns a new dispatcher without listeners |
| StateMachines.StateMachine.AddState | src/StateMachine/StateMachine.php:33-36 | registers the state under its name; an existing name is overwritten in place and a new name is placed last |
| StateMachines.StateMachine.GetState | src/StateMachine/StateMachine.php:115-124 | succeeds iff the name is registered and then yields that registered state; otherwise UnknownState of the name |
| StateMachines.StateMachine.GetTransition | src/StateMachine/StateMachine.php:126-135 | succeeds iff the name is registered and then yields that transition; otherwise UnknownTransition of the name |
| StateMachines.StateMachine.GetCurrentState | src/StateMachine/StateMachine.php:106-113 | succeeds iff the machine is initialized, yielding the current state; otherwise NotInitialized |
| StateMachines.StateMachine.Can | src/StateMachine/StateMachine.php:101-104 | fails with NotInitialized iff the machine is not initialized; otherwise true iff the name is among the current state's outgoing transitions |
| StateMachines.StateMachine.AddTransition | src/StateMachine/StateMachine.php:38-52 | registers the transition under its name; every source name becomes a registered state, new ones as fresh `initial` states placed after the old ones; old states keep their objects; every outgoing list gains the name once per occurrence among the sources |
| StateMachines.StateMachine.WireSources | src/StateMachine/StateMachine.php:42-51 | the loop over the sources keeps the registry consistent and produces exactly the name order and outgoing lists that `AddNames` and `AttachAll` describe |
| StateMachines.StateMachine.WireStep | src/StateMachine/StateMachine.php:42-51 | the `i`-th pass of the loop, stated against the registry before the loop: what holds for the first `i` sources then holds for the first `i + 1` |
| StateMachines.StateMachine.WireSource | src/StateMachine/StateMachine.php:43-50 | one iteration: the source is registered, as a fresh `initial` state if it was unknown, and only its outgoing list gains the name |
| StateMachines.StateMachine.EnsureState | src/StateMachine/StateMachine.php:43-47 | an unknown source is registered last as a fresh `initial` state with no transitions; a known one is left alone |
| StateMachines.StateMachine.AppendTransition | src/StateMachine/StateMachine.php:49-50 | only the source state's outgoing list changes, gaining the name at its end |
| StateMachines.AddNamesStep | src/StateMachine/StateMachine.php:42-47 | one more source name is appended to the order unless it is already registered |
| StateMachines.AttachAllStep | src/StateMachine/StateMachine.php:42-51 | one more source name changes only that state's list, which gains the transition name |
| StateMachines.AddNamesSpec | src/StateMachine/StateMachine.php:42-47 | the name order after registering sources keeps the old names in front, in order; it holds exactly the old names and the sources, each once |
| StateMachines.AttachAllSpec | src/StateMachine/StateMachine.php:42-51 | after wiring, exactly the old states and the sources have lists; each list is the old one (or empty) followed by the name repeated as often as the state occurs among the sources |
| StateMachines.FirstInitial | src/StateMachine/StateMachine.php:57-61 | finds the first `initial` state in registration order: all states before it are not initial; none when no state is initial |
| StateMachines.StateMachine.Initialize | src/StateMachine/StateMachine.php:54-70 | with a name in the stateful object, adopts the registered state so named or fails with UnknownState; with none, adopts the first `initial` state in registration order or fails with NoInitialState; success sets `initialized`; failure changes nothing; the stateful object is never written |
| StateMachines.StateMachine.Apply | src/StateMachine/StateMachine.php:75-94 | fails, in this order, on an unknown transition, an uninitialized machine, a transition not permitted from the current state, or an unregistered target; a failure changes nothing; success makes the target current, writes its name to the stateful object exactly once, and calls the transition's listeners with the state left and the transition; the dispatcher changes only by sorting the key order of the transition's name, so every bucket stays as it was |
| Scenarios.SortExample | tests/EventDispatcher/EventDispatcherTest.php:23-42 | `ksort` puts the priorities 0, 1, 3, 2 in the order 0, 1, 2, 3 |
| Scenarios.PriorityExample | tests/EventDispatcher/EventDispatcherTest.php:23-42 | the table built by adding listeners 0, 1, 2, 3 with priorities 0, 1, 3, 2 schedules them as 0, 1, 3, 2, lowest priority first |
| Scenarios.AutoPriorityExample | tests/EventDispatcher/EventDispatcherTest.php:44-63 | the one-bucket table built by four default-priority additions schedules them as 0, 1, 2, 3 |
| Scenarios.AddFirst | tests/EventDispatcher/EventDispatcherTest.php:25-29 | step of the registration tests: the first CREATED listener on a dispatcher without listeners starts a CREATED table with one one-listener bucket |
| Scenarios.AddNewPriority | tests/EventDispatcher/EventDispatcherTest.php:29-38 | step of the priority test, on a dispatcher holding only CREATED: a CREATED listener under a priority without a bucket appends that priority to the key order with a one-listener bucket |
| Scenarios.AddDefaultPriority | tests/EventDispatcher/EventDispatcherTest.php:50-59 | step of the default-priority test, on a dispatcher holding only CREATED: a CREATED listener without a priority is appended to the existing bucket 0, and the key order is unchanged |
| Scenarios.RegisterWithPriorities | tests/EventDispatcher/EventDispatcherTest.php:25-38 | four `AddListener` calls with priorities 0, 1, 3, 2 on a new dispatcher build exactly the table of `PriorityExample`, with no call made yet |
| Scenarios.RegisterWithDefaultPriority | tests/EventDispatcher/EventDispatcherTest.php:46-59 | four `AddListener` calls without a priority on a new dispatcher build exactly the table of `AutoPriorityExample` |
| Scenarios.CalledListenersOf | src/EventDispatcher/EventDispatcher.php:30-34 | the calls made for some registrations go to those registrations' listeners, in order |
| Scenarios.DispatchFresh | src/EventDispatcher/EventDispatcher.php:24-38 | on a dispatcher that has made no calls, dispatching calls exactly the listeners of the name's schedule, in order |
| Scenarios.PriorityDispatch | tests/EventDispatcher/EventDispatcherTest.php:23-42 | registering listeners 0, 1, 2, 3 with priorities 0, 1, 3, 2 and dispatching CREATED calls them as 0, 1, 3, 2 |
| Scenarios.AutoPriorityDispatch | tests/EventDispatcher/EventDispatcherTest.php:44-63 | registering four listeners without a priority and dispatching CREATED calls them in registration order |
| Scenarios.ListenerReceivesEventName | tests/EventDispatcher/EventDispatcherTest.php:13-21 | one CREATED listener with priority 1 is called exactly once when CREATED is dispatched, with the event name CREATED, the dispatcher itself and a new base event |
| Scenarios.NoListenerTriggered | tests/EventDispatcher/EventDispatcherTest.php:88-99 | dispatching UPDATED when only CREATED has a listener calls nothing |
| Scenarios.EmptyMachine | tests/StateMachine/StateMachineTest.php:145-151 | initializing a machine without states, with an empty stateful object, fails with the StatefulException NoInitialState |
| Scenarios.ShouldAddState | tests/StateMachine/StateMachineTest.php:14-23 | a state added as `initial` is found under its name and is initial, not normal (on a machine holding only that state) |
| Scenarios.ShouldAddTransition | tests/StateMachine/StateMachineTest.php:25-33 | an added transition is found under its name (on a machine holding only that transition) |
| Scenarios.CurrentStateBeforeInitialize | tests/StateMachine/StateMachineTest.php:35-42 | reading the current state of a machine that was never initialized fails with NotInitialized |
| Scenarios.UndefinedNames | tests/StateMachine/StateMachineTest.php:44-60 | looking up an unregistered state or transition name fails with UnknownState or UnknownTransition of that name |
| Scenarios.ApplyBeforeInitialize | src/StateMachine/StateMachine.php:75-78 | not a repository test: applying a defined transition before initialization fails with NotInitialized |

## Left out

- Listener bodies: listeners are opaque ids, and a call is a record in a log. The model does not cover a listener that throws, re-enters `apply`, or changes the dispatcher during a dispatch.
- The base `Event` class is not part of this model. An event is either a base event or a payload (`Event<P>`), and object identity is not modelled: the "new Event" of `dispatch` is the value `BaseEvent`.
- `StateMachineDispatcher` only forwards to the dispatcher, so it is folded in. `getDispatcher` is the machine's `dispatcher` field, and listeners are added with `dispatcher.AddListener`. `StateMachineEvent` is a two-field datatype, and its getters are its destructors.
- `getName` and `getTransitions` of State are its `name` and `transitions` fields.
- The accessors of Transition are its datatype destructors, and `readonly` is datatype immutability.
- Stateful persistence: the `Stateful` interface is a small class like the mock object of the tests.
- Can: compares names by exact string equality. PHP's non-strict `in_array` also equates some distinct numeric-looking strings.
- PHP turns numeric-string array keys such as `"1"` into integers. The model keeps every name as a string key.
- The transition registry is a map without an order, because nothing in the core observes that order.
- A state name `""` stored in the stateful object is looked up like any other name. This follows the code, which treats only `null` as "no name".
- If `initialize` fails after an earlier success, `initialized` stays true and is not reset. This follows the code.
- Apply: states its three effects (new current state, the stateful write, the dispatch) on the final state only. Their order is not part of the contract.
- Unit tests not replayed in `Scenarios`. They need the six-state, eight-transition workflow of tests/StateMachine/StateMachineTest.php:153-187, or two event names. What they check is covered by the contracts named with each:
  - testAddListenersWithPriorityDifferentEvents (tests/EventDispatcher/EventDispatcherTest.php:65-86): `DispatchOrderExact`, `Dispatch`;
  - testShouldSetInitialStateToStateful (tests/StateMachine/StateMachineTest.php:62-67): `Initialize`, `FirstInitial`;
  - testShouldThrowExceptionForWrongTransition (tests/StateMachine/StateMachineTest.php:69-75): `Apply`;
  - testShouldStatesHaveTransitions (tests/StateMachine/StateMachineTest.php:77-86): `AddTransition`, `AttachAllSpec`;
  - testShouldBeAbleToCheckForCanTransitions (tests/StateMachine/StateMachineTest.php:88-101): `Can`, `Apply`;
  - testShouldRunEvents (tests/StateMachine/StateMachineTest.php:103-124): `Apply`;
  - testShouldAddStatesFromTransitions (tests/StateMachine/StateMachineTest.php:126-143): `AddTransition`, `Initialize`, `Can`, `Apply`.
- Scenarios.ShouldAddState, Scenarios.ShouldAddTransition, Scenarios.CurrentStateBeforeInitialize, Scenarios.UndefinedNames: run on a machine holding only the states and transitions the test inspects, not on the full test workflow.
