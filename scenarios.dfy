/**
 * Small clients of the model that replay some of the repository's unit tests
 * in tests/EventDispatcher/EventDispatcherTest.php and
 * tests/StateMachine/StateMachineTest.php. Each outcome below follows from
 * the operations' contracts alone.
 */
module Scenarios {
  import opened Wrappers
  import opened EventDispatching
  import opened States
  import opened Transitions
  import opened Statefuls
  import opened StateMachines

  /** The listeners of a sequence of calls, in call order. */
  function CalledListeners<P>(calls: seq<Call<P>>): seq<ListenerId>
  {
    seq(|calls|, k requires 0 <= k < |calls| => calls[k].listener)
  }

  /** The calls made for some registrations go to those registrations' listeners, in order. */
  lemma CalledListenersOf<P>(d: EventDispatcher<P>, slots: seq<Slot>, event: Event<P>, eventName: string)
    ensures |CalledListeners(d.CallsOf(slots, event, eventName))| == |slots|
    ensures forall k :: 0 <= k < |slots| ==> CalledListeners(d.CallsOf(slots, event, eventName))[k] == slots[k].listener
  {
  }

  /** `ksort` puts the priorities 0, 1, 3, 2 in ascending order. */
  lemma SortExample()
    ensures SortKeys([0, 1, 3, 2]) == [0, 1, 2, 3]
  {
    var keys := [0, 1, 3, 2];
    assert Distinct(keys);
    AscendingUnique(SortKeys(keys), [0, 1, 2, 3]);
  }

  /** The table of CREATED after listeners 0, 1, 2, 3 are added with priorities 0, 1, 3, 2. */
  function PriorityTableExample(): PriorityTable
  {
    PriorityTable([0, 1, 3, 2], map[0 := [0], 1 := [1], 3 := [2], 2 := [3]])
  }

  /** The table of CREATED after listeners 0, 1, 2, 3 are added with the default priority. */
  function AutoPriorityTableExample(): PriorityTable
  {
    PriorityTable([0], map[0 := [0, 1, 2, 3]])
  }

  lemma PriorityTableExampleValid()
    ensures PriorityTableExample().Valid()
  {
    assert PriorityTableExample().order[0] == 0;
  }

  lemma PriorityFlattenTail()
    ensures Flatten([2, 3], PriorityTableExample().buckets) == [Slot(2, 0, 3), Slot(3, 0, 2)]
  {
    var b := PriorityTableExample().buckets;
    assert [2, 3][1..] == [3] && [3][1..] == [];
    assert Slots(2, b[2]) == [Slot(2, 0, 3)];
    assert Slots(3, b[3]) == [Slot(3, 0, 2)];
  }

  lemma PriorityFlatten(b: map<int, seq<ListenerId>>)
    requires b == PriorityTableExample().buckets
    ensures Flatten([0, 1, 2, 3], b) == [Slot(0, 0, 0), Slot(1, 0, 1), Slot(2, 0, 3), Slot(3, 0, 2)]
  {
    PriorityFlattenTail();
    assert [0, 1, 2, 3][1..] == [1, 2, 3] && [1, 2, 3][1..] == [2, 3];
    assert Slots(0, b[0]) == [Slot(0, 0, 0)];
    assert Slots(1, b[1]) == [Slot(1, 0, 1)];
  }

  /** The table with priorities 0, 1, 3, 2 is scheduled lowest priority first: listeners 0, 1, 3, 2. */
  lemma PriorityExample()
    ensures PriorityTableExample().Valid()
    ensures Schedule(PriorityTableExample()) == [Slot(0, 0, 0), Slot(1, 0, 1), Slot(2, 0, 3), Slot(3, 0, 2)]
  {
    PriorityTableExampleValid();
    SortExample();
    PriorityFlatten(PriorityTableExample().buckets);
  }

  /** The one-bucket table is scheduled in registration order: listeners 0, 1, 2, 3. */
  lemma AutoPriorityExample()
    ensures AutoPriorityTableExample().Valid()
    ensures Schedule(AutoPriorityTableExample()) == [Slot(0, 0, 0), Slot(0, 1, 1), Slot(0, 2, 2), Slot(0, 3, 3)]
  {
    assert SortKeys([0]) == [0];
  }

  /** The first listener of CREATED, on a dispatcher without listeners. */
  method AddFirst(d: EventDispatcher<int>, listener: ListenerId, priority: int)
    requires d.Valid() && d.listeners == map[]
    modifies d`listeners
    ensures d.Valid()
    ensures d.listeners == map["CREATED" := PriorityTable([priority], map[priority := [listener]])]
  {
    var _ := d.AddListener("CREATED", listener, priority);
  }

  /** A listener of CREATED under a priority that has no bucket yet. */
  method AddNewPriority(d: EventDispatcher<int>, before: PriorityTable, listener: ListenerId, priority: int)
    requires d.Valid() && d.listeners == map["CREATED" := before] && priority !in before.buckets
    modifies d`listeners
    ensures d.Valid()
    ensures d.listeners == map["CREATED" := PriorityTable(before.order + [priority], before.buckets[priority := [listener]])]
  {
    assert d.Bucket("CREATED", priority) == [];
    var _ := d.AddListener("CREATED", listener, priority);
    var empty: seq<ListenerId> := [];
    assert empty + [listener] == [listener];
  }

  /** A listener of CREATED under the default priority, whose bucket exists already. */
  method AddDefaultPriority(d: EventDispatcher<int>, before: PriorityTable, listener: ListenerId)
    requires d.Valid() && d.listeners == map["CREATED" := before] && 0 in before.buckets
    modifies d`listeners
    ensures d.Valid()
    ensures d.listeners == map["CREATED" := PriorityTable(before.order, before.buckets[0 := before.buckets[0] + [listener]])]
  {
    var _ := d.AddListener("CREATED", listener);
  }

  /** Equalities between the example's intermediate tables; they only split the scenario proof into small steps. */
  lemma PrioritySteps()
    ensures PriorityTable([0] + [1], map[0 := [0]][1 := [1]]) == PriorityTable([0, 1], map[0 := [0], 1 := [1]])
    ensures PriorityTable([0, 1] + [3], map[0 := [0], 1 := [1]][3 := [2]])
      == PriorityTable([0, 1, 3], map[0 := [0], 1 := [1], 3 := [2]])
    ensures PriorityTable([0, 1, 3] + [2], map[0 := [0], 1 := [1], 3 := [2]][2 := [3]]) == PriorityTableExample()
  {
  }

  /** Equalities between the example's intermediate tables; they only split the scenario proof into small steps. */
  lemma DefaultPrioritySteps()
    ensures PriorityTable([0], map[0 := [0]][0 := [0] + [1]]) == PriorityTable([0], map[0 := [0, 1]])
    ensures PriorityTable([0], map[0 := [0, 1]][0 := [0, 1] + [2]]) == PriorityTable([0], map[0 := [0, 1, 2]])
    ensures PriorityTable([0], map[0 := [0, 1, 2]][0 := [0, 1, 2] + [3]]) == AutoPriorityTableExample()
  {
    assert [0] + [1] == [0, 1];
    assert [0, 1] + [2] == [0, 1, 2];
    assert [0, 1, 2] + [3] == [0, 1, 2, 3];
    UpdateTwice(map[], 0, [0], [0, 1]);
    UpdateTwice(map[], 0, [0, 1], [0, 1, 2]);
    UpdateTwice(map[], 0, [0, 1, 2], [0, 1, 2, 3]);
  }

  /** Adding listeners 0, 1, 2, 3 to CREATED with priorities 0, 1, 3, 2 builds the example table. */
  method RegisterWithPriorities() returns (d: EventDispatcher<int>)
    ensures fresh(d) && d.Valid() && d.invoked == [] && d.listeners == map["CREATED" := PriorityTableExample()]
  {
    d := new EventDispatcher<int>();
    PrioritySteps();
    AddFirst(d, 0, 0);
    AddNewPriority(d, PriorityTable([0], map[0 := [0]]), 1, 1);
    AddNewPriority(d, PriorityTable([0, 1], map[0 := [0], 1 := [1]]), 2, 3);
    AddNewPriority(d, PriorityTable([0, 1, 3], map[0 := [0], 1 := [1], 3 := [2]]), 3, 2);
  }

  /** Adding listeners 0, 1, 2, 3 to CREATED without a priority builds the one-bucket table. */
  method RegisterWithDefaultPriority() returns (d: EventDispatcher<int>)
    ensures fresh(d) && d.Valid() && d.invoked == [] && d.listeners == map["CREATED" := AutoPriorityTableExample()]
  {
    d := new EventDispatcher<int>();
    DefaultPrioritySteps();
    AddFirst(d, 0, 0);
    AddDefaultPriority(d, PriorityTable([0], map[0 := [0]]), 1);
    AddDefaultPriority(d, PriorityTable([0], map[0 := [0, 1]]), 2);
    AddDefaultPriority(d, PriorityTable([0], map[0 := [0, 1, 2]]), 3);
  }

  /** Dispatching on a dispatcher that has made no calls calls exactly its schedule for `eventName`, in order. */
  method DispatchFresh<P>(d: EventDispatcher<P>, eventName: string)
    requires d.Valid() && d.invoked == []
    modifies d
    ensures |CalledListeners(d.invoked)| == |old(d.DispatchOrder(eventName))|
    ensures forall k :: 0 <= k < |old(d.DispatchOrder(eventName))| ==>
      CalledListeners(d.invoked)[k] == old(d.DispatchOrder(eventName))[k].listener
  {
    ghost var slots := d.DispatchOrder(eventName);
    var _ := d.Dispatch(eventName, None);
    CalledListenersOf(d, slots, BaseEvent, eventName);
  }

  /** Listeners 0, 1, 2, 3 added with priorities 0, 1, 3, 2 are called as 0, 1, 3, 2. */
  method PriorityDispatch() returns (calls: seq<Call<int>>)
    ensures CalledListeners(calls) == [0, 1, 3, 2]
  {
    var d := RegisterWithPriorities();
    PriorityExample();
    DispatchFresh(d, "CREATED");
    calls := d.invoked;
  }

  /** Listeners added without a priority are called in the order they were added. */
  method AutoPriorityDispatch() returns (calls: seq<Call<int>>)
    ensures CalledListeners(calls) == [0, 1, 2, 3]
  {
    var d := RegisterWithDefaultPriority();
    AutoPriorityExample();
    DispatchFresh(d, "CREATED");
    calls := d.invoked;
  }

  /** A single listener of CREATED, with priority 1, is called once with that event name and the dispatcher. */
  method ListenerReceivesEventName() returns (calls: seq<Call<int>>, d: EventDispatcher<int>)
    ensures |calls| == 1 && calls[0].listener == 0
    ensures calls[0].eventName == "CREATED" && calls[0].dispatcher == d && calls[0].event == BaseEvent
  {
    d := new EventDispatcher<int>();
    AddFirst(d, 0, 1);
    assert SortKeys([1]) == [1];
    assert Schedule(PriorityTable([1], map[1 := [0]])) == [Slot(1, 0, 0)];
    var _ := d.Dispatch("CREATED", None);
    calls := d.invoked;
  }

  /** A listener of CREATED is not called when UPDATED is dispatched. */
  method NoListenerTriggered() returns (calls: seq<Call<int>>)
    ensures calls == []
  {
    var d := new EventDispatcher<int>();
    var _ := d.AddListener("CREATED", 0);
    var _ := d.Dispatch("UPDATED", None);
    calls := d.invoked;
  }

  /** A machine without states has no initial state to start from. */
  method EmptyMachine() returns (r: Outcome<Error>)
    ensures r == Fail(NoInitialState) && r.error.IsStatefulException()
  {
    var s := new Stateful(None);
    var sm := new StateMachine(s);
    r := sm.Initialize();
  }

  /** A defined transition cannot be applied before `initialize`. */
  method ApplyBeforeInitialize() returns (r: Outcome<Error>)
    ensures r == Fail(NotInitialized)
  {
    var s := new Stateful(Some("draft"));
    var sm := new StateMachine(s);
    sm.AddTransition(Transition("t1", ["draft"], "reviewed"));
    r := sm.Apply("t1");
  }

  /** A state added as `initial` is found under its name and is initial, not normal. */
  method ShouldAddState() returns (r: Result<State, Error>)
    ensures r.Success? && r.value.name == "draft" && r.value.IsInitial() && !r.value.IsNormal()
  {
    var s := new Stateful(Some("draft"));
    var sm := new StateMachine(s);
    var draft := new State("draft", TypeInitial);
    sm.AddState(draft);
    r := sm.GetState("draft");
  }

  /** An added transition is found under its name. */
  method ShouldAddTransition() returns (r: Result<Transition, Error>)
    ensures r.Success? && r.value.name == "t1"
  {
    var s := new Stateful(Some("draft"));
    var sm := new StateMachine(s);
    sm.AddTransition(Transition("t1", ["draft"], "reviewed"));
    r := sm.GetTransition("t1");
  }

  /** The current state cannot be read before `initialize`. */
  method CurrentStateBeforeInitialize() returns (r: Result<State, Error>)
    ensures r == Failure(NotInitialized)
  {
    var s := new Stateful(Some("draft"));
    var sm := new StateMachine(s);
    sm.AddTransition(Transition("t1", ["draft"], "reviewed"));
    r := sm.GetCurrentState();
  }

  /** Unknown state and transition names are lookup errors. */
  method UndefinedNames() returns (state: Result<State, Error>, transition: Result<Transition, Error>)
    ensures state == Failure(UnknownState("not-existed"))
    ensures transition == Failure(UnknownTransition("not-existed"))
  {
    var s := new Stateful(Some("draft"));
    var sm := new StateMachine(s);
    sm.AddTransition(Transition("t1", ["draft"], "reviewed"));
    state := sm.GetState("not-existed");
    transition := sm.GetTransition("not-existed");
  }
}
