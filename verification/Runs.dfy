/** Runs of a system, as sequences of states joined by a step relation, and what invariants of the steps say of them. */
module Runs {

  ghost predicate Run<S(!new)>(next: (S, S) -> bool, states: seq<S>) {
    states != [] && (|states| == 1 || (Run(next, states[..|states| - 1]) && next(states[|states| - 2], states[|states| - 1])))
  }

  ghost predicate Preserves<S(!new)>(next: (S, S) -> bool, inv: S -> bool) {
    forall x, y {:trigger next(x, y)} | inv(x) && next(x, y) :: inv(y)
  }

  /** What holds at the start and survives every step holds at the end. */
  lemma {:induction false} RunKeeps<S(!new)>(next: (S, S) -> bool, inv: S -> bool, states: seq<S>)
    requires Run(next, states) && Preserves(next, inv) && inv(states[0])
    ensures inv(states[|states| - 1])
  {
    if |states| > 1 {
      var front := states[..|states| - 1];
      assert front[0] == states[0] && front[|front| - 1] == states[|states| - 2];
      RunKeeps(next, inv, front);
    }
  }

  lemma {:induction false} RunOn<S(!new)>(next: (S, S) -> bool, states: seq<S>, t: S)
    requires Run(next, states) && next(states[|states| - 1], t)
    ensures Run(next, states + [t])
  {
    var more := states + [t];
    assert more[..|more| - 1] == states;
  }

  /** A run of some steps is a run of any steps that allow them. */
  lemma {:induction false} RunWidens<S(!new)>(next: (S, S) -> bool, wider: (S, S) -> bool, states: seq<S>)
    requires Run(next, states) && forall x, y {:trigger wider(x, y)} | next(x, y) :: wider(x, y)
    ensures Run(wider, states)
  {
    if |states| > 1 {
      RunWidens(next, wider, states[..|states| - 1]);
    }
  }
}
