/** Sums of a weight over a sequence of processes. */
module Sums {

  function Sum<T>(f: T -> nat, xs: seq<T>): nat {
    if xs == [] then 0 else f(xs[0]) + Sum(f, xs[1..])
  }

  lemma {:induction false} SumAppend<T>(f: T -> nat, xs: seq<T>, x: T)
    ensures Sum(f, xs + [x]) == Sum(f, xs) + f(x)
  {
    if xs == [] {
      assert xs + [x] == [x];
      assert Sum(f, [x]) == f(x) + Sum(f, [x][1..]);
    } else {
      assert (xs + [x])[1..] == xs[1..] + [x];
      SumAppend(f, xs[1..], x);
    }
  }

  lemma {:induction false} SumUpdate<T>(f: T -> nat, xs: seq<T>, i: nat, x: T)
    requires i < |xs|
    ensures Sum(f, xs[i := x]) + f(xs[i]) == Sum(f, xs) + f(x)
    ensures f(xs[i]) <= Sum(f, xs)
  {
    if i == 0 {
      assert xs[i := x][1..] == xs[1..];
    } else {
      assert xs[i := x][1..] == xs[1..][i - 1 := x];
      SumUpdate(f, xs[1..], i - 1, x);
    }
  }

  lemma SumSame<T>(f: T -> nat, xs: seq<T>, i: nat, x: T)
    requires i < |xs| && f(x) == f(xs[i])
    ensures Sum(f, xs[i := x]) == Sum(f, xs)
  {
    SumUpdate(f, xs, i, x);
  }

  /** When the whole weighs at most one, a process that has weight is the only one. */
  lemma {:induction false} SumUnique<T>(f: T -> nat, xs: seq<T>, i: nat, j: nat)
    requires i < j < |xs|
    ensures f(xs[i]) + f(xs[j]) <= Sum(f, xs)
  {
    if i == 0 {
      SumUpdate(f, xs[1..], j - 1, xs[j]);
    } else {
      SumUnique(f, xs[1..], i - 1, j - 1);
    }
  }

  lemma {:induction false} SumZero<T>(f: T -> nat, xs: seq<T>)
    ensures Sum(f, xs) == 0 <==> forall i :: 0 <= i < |xs| ==> f(xs[i]) == 0
  {
    if xs == [] {
    } else {
      SumZero(f, xs[1..]);
      if Sum(f, xs[1..]) != 0 {
        var i :| 0 <= i < |xs[1..]| && f(xs[1..][i]) != 0;
        assert xs[i + 1] == xs[1..][i];
      } else {
        forall i | 1 <= i < |xs|
          ensures f(xs[i]) == f(xs[1..][i - 1]) == 0
        {
        }
      }
    }
  }

  lemma {:induction false} SumEqual<T>(f: T -> nat, g: T -> nat, xs: seq<T>)
    requires forall i :: 0 <= i < |xs| ==> f(xs[i]) == g(xs[i])
    ensures Sum(f, xs) == Sum(g, xs)
  {
    if xs == [] {
    } else {
      assert forall i :: 0 <= i < |xs| - 1 ==> xs[1..][i] == xs[i + 1];
      SumEqual(f, g, xs[1..]);
    }
  }
}
