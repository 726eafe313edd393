/** Runs of a machine: a list of events, each of which may or may not be possible. */
module Runs {
  import opened Basics

  /** Where a run leads, if each of its steps is possible. */
  function Fold<S, E>(next: (S, E) -> Option<S>, s: S, run: seq<E>): Option<S>
    decreases run
  {
    if run == [] then Some(s)
    else
      var t := next(s, run[0]);
      if t.None? then None else Fold(next, t.value, run[1..])
  }

  lemma FoldCons<S, E>(next: (S, E) -> Option<S>, s: S, event: E, rest: seq<E>)
    ensures Fold(next, s, [event] + rest) ==
            if next(s, event).None? then None else Fold(next, next(s, event).value, rest)
  {
    assert ([event] + rest)[1..] == rest;
  }

  lemma {:induction false} FoldAppend<S, E>(next: (S, E) -> Option<S>, s: S, first: seq<E>, second: seq<E>)
    requires Fold(next, s, first).Some?
    ensures Fold(next, s, first + second) == Fold(next, Fold(next, s, first).value, second)
    decreases first
  {
    if first == [] {
      assert first + second == second;
    } else {
      FoldAppend(next, next(s, first[0]).value, first[1..], second);
      assert (first + second)[1..] == first[1..] + second;
    }
  }
}
