/** Runs of a state machine: what every step keeps, every run keeps. */
module Runs {

  ghost function Fold<S, A>(next: (S, A) -> S, s: S, actions: seq<A>): S
    decreases |actions|
  {
    if actions == [] then s else Fold(next, next(s, actions[0]), actions[1..])
  }

  lemma {:induction false} FoldKeeps<S(!new), A(!new)>(next: (S, A) -> S, holds: S -> bool, s: S, actions: seq<A>)
    requires holds(s)
    requires forall t, a :: holds(t) ==> holds(next(t, a))
    ensures holds(Fold(next, s, actions))
    decreases |actions|
  {
    if actions != [] { FoldKeeps(next, holds, next(s, actions[0]), actions[1..]); }
  }
}
