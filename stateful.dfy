/** The object whose lifecycle the machine tracks, reduced to its finite-state slot. */
module Statefuls {
  import opened Wrappers

  /**
   * The stateful capability: a finite-state name that may be absent. The
   * ghost `writes` records every name written, so that a caller can state how
   * often the machine wrote.
   */
  class Stateful {
    var finiteState: Option<string>
    ghost var writes: seq<string>

    constructor (finiteState: Option<string>)
      ensures this.finiteState == finiteState && writes == []
    {
      this.finiteState := finiteState;
      writes := [];
    }

    method SetFiniteState(state: string)
      modifies this
      ensures finiteState == Some(state)
      ensures writes == old(writes) + [state]
    {
      finiteState := Some(state);
      writes := writes + [state];
    }
  }
}
