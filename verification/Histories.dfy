/** Histories: sequences of states in which each one follows from the last by an allowed step. */
module Histories {

  type Rule<!S> = (S, S) -> bool

  ghost predicate Chain<S(!new)>(run: seq<S>, step: Rule<S>) {
    forall i :: 0 < i < |run| ==> step(run[i - 1], run[i])
  }

  /** The history grew by allowed steps only. */
  ghost predicate Extends<S(!new)>(before: seq<S>, after: seq<S>, step: Rule<S>) {
    && before != [] && before <= after
    && Chain(after[|before| - 1..], step)
  }

  lemma NoSteps<S(!new)>(h: seq<S>, step: Rule<S>)
    requires h != []
    ensures Extends(h, h, step)
  {}

  lemma OneMore<S(!new)>(before: seq<S>, h: seq<S>, v: S, step: Rule<S>)
    requires Extends(before, h, step) && step(h[|h| - 1], v)
    ensures Extends(before, h + [v], step)
  {
    var a, b := h[|before| - 1..], (h + [v])[|before| - 1..];
    assert b == a + [v];
  }

  lemma Joined<S(!new)>(a: seq<S>, b: seq<S>, c: seq<S>, step: Rule<S>)
    requires Extends(a, b, step) && Extends(b, c, step)
    ensures Extends(a, c, step)
  {
    var run, first, second := c[|a| - 1..], b[|a| - 1..], c[|b| - 1..];
    forall i | 0 < i < |run| ensures step(run[i - 1], run[i]) {
      if i < |first| {
        assert run[i - 1] == first[i - 1] && run[i] == first[i];
      } else {
        var j := i - (|first| - 1);
        assert run[i - 1] == second[j - 1] && run[i] == second[j];
      }
    }
  }

  /** What is allowed under one rule is allowed under any more generous one. */
  lemma Relaxed<S(!new)>(a: seq<S>, b: seq<S>, step: Rule<S>, wider: Rule<S>)
    requires Extends(a, b, step) && forall w, v :: step(w, v) ==> wider(w, v)
    ensures Extends(a, b, wider)
  {}

  /** What no step changes is the same all along. */
  lemma {:induction false} Constant<S(!new), T(!new)>(run: seq<S>, step: Rule<S>, part: S -> T)
    requires run != [] && Chain(run, step) && forall w, v :: step(w, v) ==> part(v) == part(w)
    ensures forall i :: 0 <= i < |run| ==> part(run[i]) == part(run[0])
  {
    if |run| > 1 {
      var n := |run| - 1;
      assert forall i :: 0 <= i < n ==> run[..n][i] == run[i];
      Constant(run[..n], step, part);
      assert step(run[n - 1], run[n]);
    }
  }
}
