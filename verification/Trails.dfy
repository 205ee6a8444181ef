/** Transition tables: append-only rows that log every state change of every id. */
module Trails {
  import opened Wrappers

  /** One row; `from` is None for the row of an id's first state. */
  datatype Move<S> = Move(id: string, from: Option<S>, to: S)

  /** The states `id` has gone through, in order. */
  function StatesOf<S>(trail: seq<Move<S>>, id: string): seq<S> {
    if trail == [] then []
    else
      var last := trail[|trail| - 1];
      StatesOf(trail[..|trail| - 1], id) + (if last.id == id then [last.to] else [])
  }

  lemma StatesAfter<S>(trail: seq<Move<S>>, m: Move<S>, id: string)
    ensures StatesOf(trail + [m], id) == StatesOf(trail, id) + (if m.id == id then [m.to] else [])
  {
    assert (trail + [m])[..|trail|] == trail;
  }

  lemma {:induction false} NoMovesNoStates<S>(trail: seq<Move<S>>, id: string)
    requires forall m | m in trail :: m.id != id
    ensures StatesOf(trail, id) == []
  {
    if trail != [] {
      NoMovesNoStates(trail[..|trail| - 1], id);
    }
  }
}
