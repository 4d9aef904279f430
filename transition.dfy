/** Transitions: immutable named edges between states. */
module Transitions {

  /**
   * A transition `name` that may be taken from any state named in `sources`
   * (kept as given, order and repetitions included) and leads to the state
   * named `target`. The target need not exist when the transition is built;
   * the destructors `name`, `sources` and `target` are its accessors, and a
   * datatype value cannot be changed after construction.
   */
  datatype Transition = Transition(name: string, sources: seq<string>, target: string)
}
