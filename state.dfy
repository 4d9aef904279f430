/** States: named nodes with a type and an append-only list of outgoing transitions. */
module States {

  const TypeInitial: string := "initial"
  const TypeFinal: string := "final"
  const TypeNormal: string := "normal"

  /**
   * A state. Its name and type are fixed at construction (`const`); the type
   * is any string, the three constants above being the meaningful ones. The
   * names of the transitions that may leave it grow by appending only.
   */
  class State {
    const name: string
    const kind: string
    var transitions: seq<string>

    /** A new state has no outgoing transitions; its type defaults to `normal`. */
    constructor (name: string, kind: string := TypeNormal)
      ensures this.name == name && this.kind == kind
      ensures transitions == []
    {
      this.name := name;
      this.kind := kind;
      transitions := [];
    }

    /** The type is `initial`. */
    predicate IsInitial(): (r: bool)
      ensures r <==> kind == TypeInitial
    {
      kind == TypeInitial
    }

    /** The type is `normal`. */
    predicate IsNormal(): (r: bool)
      ensures r <==> kind == TypeNormal
    {
      kind == TypeNormal
    }

    /** Appends `transitionName`, without removing an earlier equal entry. */
    method AddTransition(transitionName: string)
      modifies this
      ensures transitions == old(transitions) + [transitionName]
    {
      transitions := transitions + [transitionName];
    }
  }

  /** The type predicates exclude each other, and a final state satisfies neither. */
  lemma TypePredicatesExclusive(s: State)
    ensures !(s.IsInitial() && s.IsNormal())
    ensures s.kind == TypeFinal ==> !s.IsInitial() && !s.IsNormal()
    ensures s.IsInitial() <==> s.kind == TypeInitial
    ensures s.IsNormal() <==> s.kind == TypeNormal
  {
  }
}
