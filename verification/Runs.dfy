/**
 Runs of a machine: a step function folded over a list of actions.
 */
module Runs {
  function Fold<S, A>(step: (S, A) -> S, s: S, acts: seq<A>): S
    decreases |acts|
  {
    if acts == [] then s else Fold(step, step(s, acts[0]), acts[1..])
  }

  /** A run splits anywhere. */
  lemma {:induction false} FoldSplit<S, A>(step: (S, A) -> S, s: S, acts: seq<A>, more: seq<A>)
    ensures Fold(step, s, acts + more) == Fold(step, Fold(step, s, acts), more)
    decreases |acts|
  {
    if acts == [] {
      assert acts + more == more;
    } else {
      assert (acts + more)[0] == acts[0] && (acts + more)[1..] == acts[1..] + more;
      FoldSplit(step, step(s, acts[0]), acts[1..], more);
    }
  }

  lemma FoldOne<S, A>(step: (S, A) -> S, s: S, a: A)
    ensures Fold(step, s, [a]) == step(s, a)
  {
    assert Fold(step, s, [a]) == Fold(step, step(s, a), []);
  }

  lemma FoldLast<S, A>(step: (S, A) -> S, s: S, acts: seq<A>)
    requires acts != []
    ensures var n := |acts| - 1; Fold(step, s, acts) == step(Fold(step, s, acts[..n]), acts[n])
  {
    var n := |acts| - 1;
    assert acts == acts[..n] + [acts[n]];
    FoldSplit(step, s, acts[..n], [acts[n]]);
    FoldOne(step, Fold(step, s, acts[..n]), acts[n]);
  }
}
