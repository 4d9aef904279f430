/**
 * The state machine: registries of states and transitions, the current
 * state, the external stateful object and an embedded event dispatcher.
 * Exceptions become `Error` values returned in a `Result` or `Outcome`.
 */
module StateMachines {
  import opened Wrappers
  import opened EventDispatching
  import opened States
  import opened Transitions
  import opened Statefuls

  datatype Error =
    | UnknownState(name: string)
    | UnknownTransition(name: string)
    | NotInitialized
    | IllegalTransition(transition: string, state: string)
    | NoInitialState
  {
    /** Thrown as a StatefulException; every other error is a StateException. */
    predicate IsStatefulException(): (r: bool)
      ensures r <==> this == NoInitialState
    {
      NoInitialState?
    }
  }

  /** The payload announced after a transition: the state left and the transition taken. */
  datatype StateMachineEvent = StateMachineEvent(state: State, transition: Transition)

  /** `name` repeated `n` times. */
  function Repeat(name: string, n: nat): (r: seq<string>)
  {
    seq(n, _ => name)
  }

  lemma RepeatSnoc(name: string, n: nat)
    ensures Repeat(name, n + 1) == Repeat(name, n) + [name]
  {
  }

  /**
   * The registry order after `addTransition` has visited `sources`: a name
   * not yet present is appended, a known one keeps its place.
   */
  function AddNames(order: seq<string>, sources: seq<string>): seq<string>
  {
    if sources == [] then order
    else
      var prev := AddNames(order, sources[..|sources| - 1]);
      var last := sources[|sources| - 1];
      if last in prev then prev else prev + [last]
  }

  /**
   * The outgoing-transition lists (state name => names) after `addTransition`
   * has appended `name` to the state of each entry of `sources`, creating an
   * empty list for a state that had none.
   */
  function AttachAll(outgoing: map<string, seq<string>>, sources: seq<string>, name: string)
    : map<string, seq<string>>
  {
    if sources == [] then outgoing
    else
      var prev := AttachAll(outgoing, sources[..|sources| - 1], name);
      var last := sources[|sources| - 1];
      prev[last := (if last in prev then prev[last] else []) + [name]]
  }

  /**
   * Registering a transition keeps the old names in their order, in front,
   * adds exactly the new source names, and never repeats a name.
   */
  lemma {:induction false} AddNamesSpec(order: seq<string>, sources: seq<string>)
    requires Distinct(order)
    ensures Distinct(AddNames(order, sources))
    ensures forall x :: x in AddNames(order, sources) <==> x in order || x in sources
    ensures |order| <= |AddNames(order, sources)| && AddNames(order, sources)[..|order|] == order
  {
    if sources != [] {
      var init := sources[..|sources| - 1];
      AddNamesSpec(order, init);
      assert sources == init + [sources[|sources| - 1]];
      var prev := AddNames(order, init);
      assert prev[..|order|] == order;
      assert (prev + [sources[|sources| - 1]])[..|order|] == prev[..|order|];
    }
  }

  /**
   * After the sources are wired, every source has a list; each list is the
   * old one (or empty) followed by `name` once per occurrence of the state
   * in `sources`, with no deduplication.
   */
  lemma {:induction false} AttachAllSpec(outgoing: map<string, seq<string>>, sources: seq<string>, name: string)
    ensures forall k :: k in AttachAll(outgoing, sources, name) <==> k in outgoing || k in sources
    ensures forall k :: k in AttachAll(outgoing, sources, name) ==>
      AttachAll(outgoing, sources, name)[k] ==
        (if k in outgoing then outgoing[k] else []) + Repeat(name, multiset(sources)[k])
  {
    if sources != [] {
      var init := sources[..|sources| - 1];
      var last := sources[|sources| - 1];
      AttachAllSpec(outgoing, init, name);
      assert sources == init + [last];
      forall k | k in AttachAll(outgoing, sources, name)
        ensures AttachAll(outgoing, sources, name)[k] ==
          (if k in outgoing then outgoing[k] else []) + Repeat(name, multiset(sources)[k])
      {
        RepeatSnoc(name, multiset(init)[k]);
      }
    }
  }

  /** One more source name: the order gains it at the end unless it is present. */
  lemma AddNamesStep(order: seq<string>, sources: seq<string>, i: nat)
    requires i < |sources|
    ensures AddNames(order, sources[..i + 1]) ==
      if sources[i] in AddNames(order, sources[..i]) then AddNames(order, sources[..i])
      else AddNames(order, sources[..i]) + [sources[i]]
  {
    assert sources[..i + 1][..i] == sources[..i];
  }

  /** One more source name: only that state's list changes, gaining the name. */
  lemma AttachAllStep(outgoing: map<string, seq<string>>, sources: seq<string>, i: nat, name: string)
    requires i < |sources|
    ensures AttachAll(outgoing, sources[..i + 1], name) ==
      AttachAll(outgoing, sources[..i], name)[sources[i] :=
        (if sources[i] in AttachAll(outgoing, sources[..i], name)
         then AttachAll(outgoing, sources[..i], name)[sources[i]] else []) + [name]]
  {
    assert sources[..i + 1][..i] == sources[..i];
  }

  /** Updating a key twice keeps only the second value. */
  lemma UpdateTwice<K, V>(m: map<K, V>, k: K, first: V, second: V)
    ensures m[k := first][k := second] == m[k := second]
  {
  }

  /** The position in `order` of the first state whose type is `initial`. */
  function FirstInitial(order: seq<string>, states: map<string, State>): (r: Option<nat>)
    requires forall k :: k in order ==> k in states
    ensures r.Some? ==> r.value < |order| && states[order[r.value]].IsInitial()
    ensures r.Some? ==> forall j :: 0 <= j < r.value ==> !states[order[j]].IsInitial()
    ensures r.None? ==> forall j :: 0 <= j < |order| ==> !states[order[j]].IsInitial()
  {
    if order == [] then None
    else if states[order[0]].IsInitial() then Some(0)
    else
      match FirstInitial(order[1..], states)
      case None => None
      case Some(k) => Some(k + 1)
  }

  class StateMachine {
    /** The state names in insertion order; overwriting a name keeps its place. */
    var stateOrder: seq<string>
    var states: map<string, State>
    var transitions: map<string, Transition>
    const stateful: Stateful
    var currentState: State?
    const dispatcher: EventDispatcher<StateMachineEvent>
    var initialized: bool

    /** The registries are keyed by name, and a current state exists once initialized. */
    ghost predicate Consistent()
      reads this
    {
      && (forall k :: k in states <==> k in stateOrder)
      && Distinct(stateOrder)
      && (forall k :: k in states ==> states[k].name == k)
      && (forall k :: k in transitions ==> transitions[k].name == k)
      && (initialized ==> currentState != null)
    }

    ghost predicate Valid()
      reads this, dispatcher
    {
      Consistent() && dispatcher.Valid()
    }

    constructor (stateful: Stateful)
      ensures Valid() && this.stateful == stateful
      ensures stateOrder == [] && states == map[] && transitions == map[] && !initialized
      ensures fresh(dispatcher) && dispatcher.listeners == map[] && dispatcher.invoked == []
    {
      this.stateful := stateful;
      dispatcher := new EventDispatcher();
      stateOrder := [];
      states := map[];
      transitions := map[];
      currentState := null;
      initialized := false;
    }

    /** Registers `state` under its name, replacing an equal name in its old place. */
    method AddState(state: State)
      requires Valid()
      modifies this`states, this`stateOrder
      ensures Valid()
      ensures states == old(states)[state.name := state]
      ensures stateOrder == if state.name in old(states) then old(stateOrder) else old(stateOrder) + [state.name]
    {
      if state.name !in states {
        stateOrder := stateOrder + [state.name];
      }
      states := states[state.name := state];
    }

    /** The registered state `name`, or UnknownState. */
    function GetState(name: string): (r: Result<State, Error>)
      reads this
      requires Consistent()
      ensures r.Success? <==> name in states
      ensures r.Success? ==> r.value == states[name] && r.value.name == name
      ensures r.Failure? ==> r.error == UnknownState(name)
    {
      if name !in states then Failure(UnknownState(name)) else Success(states[name])
    }

    /** The registered transition `name`, or UnknownTransition. */
    function GetTransition(name: string): (r: Result<Transition, Error>)
      reads this
      requires Consistent()
      ensures r.Success? <==> name in transitions
      ensures r.Success? ==> r.value == transitions[name] && r.value.name == name
      ensures r.Failure? ==> r.error == UnknownTransition(name)
    {
      if name !in transitions then Failure(UnknownTransition(name)) else Success(transitions[name])
    }

    /** The current state, or NotInitialized before `Initialize` has succeeded. */
    function GetCurrentState(): (r: Result<State, Error>)
      reads this
      requires Consistent()
      ensures r.Success? <==> initialized
      ensures r.Success? ==> r.value == currentState
      ensures r.Failure? ==> r.error == NotInitialized
    {
      if !initialized then Failure(NotInitialized) else Success(currentState)
    }

    /** Whether `transitionName` is among the current state's outgoing transitions. */
    function Can(transitionName: string): (r: Result<bool, Error>)
      reads this, currentState
      requires Consistent()
      ensures r.Failure? <==> !initialized
      ensures r.Failure? ==> r.error == NotInitialized
      ensures r.Success? ==> (r.value <==> transitionName in currentState.transitions)
    {
      match GetCurrentState()
      case Failure(e) => Failure(e)
      case Success(s) => Success(transitionName in s.transitions)
    }

    /** The outgoing-transition list of every registered state, by name. */
    ghost function Outgoing(): map<string, seq<string>>
      reads this`states, states.Values
    {
      map k | k in states :: states[k].transitions
    }

    /**
     * Registers `transition` under its name. Every source state not yet
     * registered is created with type `initial` and registered after the
     * others; then each source state, old or new, gets the transition's name
     * appended, once per occurrence in `sources`.
     */
    method AddTransition(transition: Transition)
      requires Valid()
      modifies this`transitions, this`states, this`stateOrder, states.Values
      ensures Valid()
      ensures transitions == old(transitions)[transition.name := transition]
      ensures stateOrder == AddNames(old(stateOrder), transition.sources)
      ensures Outgoing() == AttachAll(old(Outgoing()), transition.sources, transition.name)
      ensures forall k :: k in old(states) ==> k in states && states[k] == old(states[k])
      ensures forall k :: k in states && k !in old(states) ==> fresh(states[k]) && states[k].IsInitial()
      ensures forall k :: k in states <==> k in old(states) || k in transition.sources
    {
      ghost var outgoing := Outgoing();
      transitions := transitions[transition.name := transition];
      assert Outgoing() == outgoing;
      WireSources(transition.sources, transition.name);
      AddNamesSpec(old(stateOrder), transition.sources);
      forall k | k in states && k !in old(states)
        ensures fresh(states[k])
      {
        forall j | j in old(states)
          ensures old(states)[j] != states[k]
        {
          assert old(states)[j].name == j;
        }
        assert states[k] in states.Values - old(states.Values);
      }
    }

    /** The loop of `addTransition` over the transition's source names. */
    method WireSources(sources: seq<string>, transitionName: string)
      requires Valid()
      modifies this`states, this`stateOrder, states.Values
      ensures Valid()
      ensures stateOrder == AddNames(old(stateOrder), sources)
      ensures Outgoing() == AttachAll(old(Outgoing()), sources, transitionName)
      ensures forall k :: k in old(states) ==> k in states && states[k] == old(states[k])
      ensures forall k :: k in states && k !in old(states) ==> states[k].IsInitial()
      ensures fresh(states.Values - old(states.Values))
    {
      for i := 0 to |sources|
        invariant Valid()
        invariant stateOrder == AddNames(old(stateOrder), sources[..i])
        invariant Outgoing() == AttachAll(old(Outgoing()), sources[..i], transitionName)
        invariant forall k :: k in old(states) ==> k in states && states[k] == old(states[k])
        invariant forall k :: k in states && k !in old(states) ==> states[k].IsInitial()
        invariant fresh(states.Values - old(states.Values))
      {
        WireStep(sources, i, transitionName, old(stateOrder), old(Outgoing()), old(states));
      }
      assert sources[..|sources|] == sources;
    }

    /**
     * The `i`-th pass of that loop, stated against the registry as it was
     * before the loop (`order0`, `outgoing0`, `states0`).
     */
    method WireStep(sources: seq<string>, i: nat, transitionName: string, ghost order0: seq<string>,
                    ghost outgoing0: map<string, seq<string>>, ghost states0: map<string, State>)
      requires i < |sources| && Valid()
      requires stateOrder == AddNames(order0, sources[..i])
      requires Outgoing() == AttachAll(outgoing0, sources[..i], transitionName)
      requires forall k :: k in states0 ==> k in states && states[k] == states0[k]
      requires forall k :: k in states && k !in states0 ==> states[k].IsInitial()
      modifies this`states, this`stateOrder, if sources[i] in states then {states[sources[i]]} else {}
      ensures Valid()
      ensures stateOrder == AddNames(order0, sources[..i + 1])
      ensures Outgoing() == AttachAll(outgoing0, sources[..i + 1], transitionName)
      ensures forall k :: k in states0 ==> k in states && states[k] == states0[k]
      ensures forall k :: k in states && k !in states0 ==> states[k].IsInitial()
      ensures fresh(states.Values - old(states.Values))
    {
      AddNamesStep(order0, sources, i);
      AttachAllStep(outgoing0, sources, i, transitionName);
      WireSource(sources[i], transitionName);
    }

    /**
     * One pass of the loop in `addTransition`: registers `source` as a new
     * `initial` state when it is unknown, then appends `transitionName` to it.
     */
    method WireSource(source: string, transitionName: string)
      requires Valid()
      modifies this`states, this`stateOrder, if source in states then {states[source]} else {}
      ensures Valid()
      ensures stateOrder == if source in old(stateOrder) then old(stateOrder) else old(stateOrder) + [source]
      ensures Outgoing() == old(Outgoing())[source :=
        (if source in old(Outgoing()) then old(Outgoing())[source] else []) + [transitionName]]
      ensures forall k :: k in old(states) ==> k in states && states[k] == old(states[k])
      ensures source !in old(states) ==> fresh(states[source]) && states[source].IsInitial()
      ensures forall k :: k in states ==> k in old(states) || k == source
    {
      ghost var outgoing := Outgoing();
      ghost var list := if source in outgoing then outgoing[source] else [];
      EnsureState(source);
      AppendTransition(source, transitionName);
      UpdateTwice(outgoing, source, list, list + [transitionName]);
    }

    /** The `getState` probe of `addTransition`: an unknown `source` becomes a new `initial` state. */
    method EnsureState(source: string)
      requires Valid()
      modifies this`states, this`stateOrder
      ensures Valid() && source in states
      ensures stateOrder == if source in old(stateOrder) then old(stateOrder) else old(stateOrder) + [source]
      ensures Outgoing() == old(Outgoing())[source := if source in old(Outgoing()) then old(Outgoing())[source] else []]
      ensures forall k :: k in old(states) ==> k in states && states[k] == old(states[k])
      ensures source !in old(states) ==> fresh(states[source]) && states[source].IsInitial()
      ensures forall k :: k in states ==> k in old(states) || k == source
    {
      if GetState(source).Failure? {
        var created := new State(source, TypeInitial);
        AddState(created);
      }
    }

    /** Appends `transitionName` to the outgoing transitions of the registered state `source`. */
    method AppendTransition(source: string, transitionName: string)
      requires Valid() && source in states
      modifies states[source]
      ensures Valid()
      ensures Outgoing() == old(Outgoing())[source := old(Outgoing())[source] + [transitionName]]
    {
      var s := GetState(source).value;
      s.AddTransition(transitionName);
    }

    /**
     * Resolves the current state: the registered state named by the stateful
     * object, or, when it holds no name, the first `initial` state in
     * registration order. The stateful object is only read.
     */
    method Initialize() returns (r: Outcome<Error>)
      requires Valid()
      modifies this`currentState, this`initialized
      ensures Valid()
      ensures stateful.finiteState.Some? ==>
        var name := stateful.finiteState.value;
        if name in states then r == Pass && currentState == states[name]
        else r == Fail(UnknownState(name))
      ensures stateful.finiteState.None? ==>
        match FirstInitial(stateOrder, states)
        case None => r == Fail(NoInitialState)
        case Some(k) => r == Pass && currentState == states[stateOrder[k]]
      ensures r.Pass? ==> initialized
      ensures r.Fail? ==> currentState == old(currentState) && initialized == old(initialized)
    {
      var initialState: string;
      match stateful.finiteState {
        case Some(name) =>
          initialState := name;
        case None =>
          var first := FirstInitial(stateOrder, states);
          if first.None? {
            return Fail(NoInitialState);
          }
          initialState := states[stateOrder[first.value]].name;
      }
      var found := GetState(initialState);
      if found.Failure? {
        return Fail(found.error);
      }
      currentState := found.value;
      initialized := true;
      r := Pass;
    }

    /**
     * Applies `transitionName`: checks that it exists, that the machine is
     * initialized, that the current state permits it and that its target is
     * registered; any failure changes nothing. On success the target becomes
     * current, its name is written to the stateful object once, and the
     * listeners of `transitionName` are called with the state left and the
     * transition.
     */
    method Apply(transitionName: string) returns (r: Outcome<Error>)
      requires Valid()
      modifies this`currentState, stateful, dispatcher
      ensures Valid()
      ensures transitionName !in transitions ==> r == Fail(UnknownTransition(transitionName))
      ensures transitionName in transitions && !initialized ==> r == Fail(NotInitialized)
      ensures transitionName in transitions && old(Can(transitionName)) == Success(false) ==>
        r == Fail(IllegalTransition(transitionName, old(currentState).name))
      ensures transitionName in transitions && old(Can(transitionName)) == Success(true) ==>
        var target := transitions[transitionName].target;
        r == if target in states then Pass else Fail(UnknownState(target))
      ensures r.Fail? ==>
        && currentState == old(currentState)
        && stateful.finiteState == old(stateful.finiteState)
        && stateful.writes == old(stateful.writes)
        && dispatcher.listeners == old(dispatcher.listeners)
        && dispatcher.invoked == old(dispatcher.invoked)
      ensures r.Pass? ==>
        var target := transitions[transitionName].target;
        && currentState == states[target]
        && stateful.finiteState == Some(target)
        && stateful.writes == old(stateful.writes) + [target]
        && dispatcher.invoked == old(dispatcher.invoked) + dispatcher.CallsOf(
             old(dispatcher.DispatchOrder(transitionName)),
             Payload(StateMachineEvent(old(currentState), transitions[transitionName])),
             transitionName)
        && (forall e, p :: dispatcher.Bucket(e, p) == old(dispatcher.Bucket(e, p)))
        && dispatcher.listeners == if transitionName in old(dispatcher.listeners)
             then old(dispatcher.listeners)[transitionName := PriorityTable(
               SortKeys(old(dispatcher.listeners[transitionName].order)),
               old(dispatcher.listeners[transitionName].buckets))]
             else old(dispatcher.listeners)
    {
      var found := GetTransition(transitionName);
      if found.Failure? {
        return Fail(found.error);
      }
      var transition := found.value;
      var current := GetCurrentState();
      if current.Failure? {
        return Fail(current.error);
      }
      var event := StateMachineEvent(current.value, transition);
      if !Can(transitionName).value {
        return Fail(IllegalTransition(transitionName, current.value.name));
      }
      var target := GetState(transition.target);
      if target.Failure? {
        return Fail(target.error);
      }
      currentState := target.value;
      stateful.SetFiniteState(currentState.name);
      var _ := dispatcher.Dispatch(transition.name, Some(Payload(event)));
      r := Pass;
    }
  }
}
