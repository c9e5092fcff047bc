/** Runs of a transition relation, and the two rules every protocol below uses:
    an inductive invariant holds all along a run, and a measure that every step
    lowers bounds the length of every run. */
module Runs {

  /** Consecutive states of `run` are related by `next`. A run of one state takes no step. */
  ghost predicate IsRun<S(!new)>(next: (S, S) -> bool, run: seq<S>) {
    && |run| > 0
    && forall i :: 0 <= i < |run| - 1 ==> next(run[i], run[i + 1])
  }

  ghost predicate Inductive<S(!new)>(next: (S, S) -> bool, inv: S -> bool) {
    forall s, t :: inv(s) && next(s, t) ==> inv(t)
  }

  ghost predicate Lowers<S(!new)>(next: (S, S) -> bool, inv: S -> bool, measure: S -> nat) {
    forall s, t :: inv(s) && next(s, t) ==> measure(t) < measure(s)
  }

  lemma {:induction false} InvariantHolds<S(!new)>(next: (S, S) -> bool, inv: S -> bool, run: seq<S>)
    requires IsRun(next, run) && inv(run[0]) && Inductive(next, inv)
    ensures forall i :: 0 <= i < |run| ==> inv(run[i])
  {
    if |run| == 1 {
    } else {
      var before := run[..|run| - 1];
      InvariantHolds(next, inv, before);
      assert inv(before[|run| - 2]);
      assert next(run[|run| - 2], run[|run| - 2 + 1]);
    }
  }

  lemma {:induction false} RunIsBounded<S(!new)>(next: (S, S) -> bool, inv: S -> bool, measure: S -> nat, run: seq<S>)
    requires IsRun(next, run) && inv(run[0]) && Inductive(next, inv) && Lowers(next, inv, measure)
    ensures |run| - 1 + measure(run[|run| - 1]) <= measure(run[0])
  {
    if |run| == 1 {
    } else {
      InvariantHolds(next, inv, run);
      var before := run[..|run| - 1];
      RunIsBounded(next, inv, measure, before);
      assert next(run[|run| - 2], run[|run| - 2 + 1]);
    }
  }

  lemma SuffixIsRun<S(!new)>(next: (S, S) -> bool, run: seq<S>, k: nat)
    requires IsRun(next, run) && k < |run|
    ensures IsRun(next, run[k..])
  {
    var rest := run[k..];
    forall i | 0 <= i < |rest| - 1
      ensures next(rest[i], rest[i + 1])
    {
      assert next(run[k + i], run[k + i + 1]);
    }
  }

  lemma ExtendRun<S(!new)>(next: (S, S) -> bool, run: seq<S>, t: S)
    requires IsRun(next, run) && next(run[|run| - 1], t)
    ensures IsRun(next, run + [t])
  {
    var longer := run + [t];
    forall i | 0 <= i < |longer| - 1
      ensures next(longer[i], longer[i + 1])
    {
      if i < |run| - 1 {
        assert next(run[i], run[i + 1]);
      }
    }
  }

  /** The state that the attempts in `picks` lead to, one after the other. */
  function Replay<S, P>(attempt: (S, P) -> S, s: S, picks: seq<P>): S {
    if picks == [] then s else attempt(Replay(attempt, s, picks[..|picks| - 1]), picks[|picks| - 1])
  }

  lemma ReplayOneMore<S, P>(attempt: (S, P) -> S, s: S, picks: seq<P>, p: P)
    ensures Replay(attempt, s, picks + [p]) == attempt(Replay(attempt, s, picks), p)
  {
    assert (picks + [p])[..|picks|] == picks;
  }

  /** An attempt is a step, or changes nothing. */
  ghost predicate Attempts<S(!new), P(!new)>(next: (S, S) -> bool, attempt: (S, P) -> S) {
    forall s, p :: attempt(s, p) == s || next(s, attempt(s, p))
  }

  lemma {:induction false} ReplayIsRun<S(!new), P(!new)>(
    next: (S, S) -> bool, attempt: (S, P) -> S, s: S, picks: seq<P>) returns (run: seq<S>)
    requires Attempts(next, attempt)
    ensures IsRun(next, run) && run[0] == s && run[|run| - 1] == Replay(attempt, s, picks)
  {
    if picks == [] {
      run := [s];
    } else {
      run := ReplayIsRun(next, attempt, s, picks[..|picks| - 1]);
      var t := attempt(run[|run| - 1], picks[|picks| - 1]);
      if t != run[|run| - 1] {
        ExtendRun(next, run, t);
        run := run + [t];
      }
    }
  }
}
