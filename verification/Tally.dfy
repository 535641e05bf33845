/** Sums over the threads of a protocol: how many stand at given places, how many steps they have left. */
module Tally {
  function Sum<T>(f: T -> int, xs: seq<T>): int {
    if xs == [] then 0 else f(xs[0]) + Sum(f, xs[1..])
  }

  /** Moving one thread changes the sum by the difference of its two places. */
  lemma {:induction false} SumUpdate<T>(f: T -> int, xs: seq<T>, i: nat, x: T)
    requires i < |xs|
    ensures Sum(f, xs[i := x]) == Sum(f, xs) - f(xs[i]) + f(x)
  {
    if i == 0 {
      assert xs[0 := x][1..] == xs[1..];
    } else {
      assert xs[i := x][1..] == xs[1..][i - 1 := x];
      SumUpdate(f, xs[1..], i - 1, x);
    }
  }

  lemma {:induction false} SumConstant<T>(f: T -> int, xs: seq<T>, c: int)
    requires forall i :: 0 <= i < |xs| ==> f(xs[i]) == c
    ensures Sum(f, xs) == c * |xs|
  {
    if xs != [] {
      SumConstant(f, xs[1..], c);
    }
  }

  /** A sum of terms that are never negative is at least each of them. */
  lemma {:induction false} SumAtLeast<T(!new)>(f: T -> int, xs: seq<T>, i: nat)
    requires (forall x :: f(x) >= 0) && i < |xs|
    ensures Sum(f, xs) >= f(xs[i])
  {
    if i == 0 {
      SumNonNegative(f, xs[1..]);
    } else {
      SumAtLeast(f, xs[1..], i - 1);
    }
  }

  lemma {:induction false} SumAtMost<T(!new)>(f: T -> int, g: T -> int, xs: seq<T>)
    requires forall x :: f(x) <= g(x)
    ensures Sum(f, xs) <= Sum(g, xs)
  {
    if xs != [] {
      SumAtMost(f, g, xs[1..]);
    }
  }

  lemma {:induction false} SumNonNegative<T(!new)>(f: T -> int, xs: seq<T>)
    requires forall x :: f(x) >= 0
    ensures Sum(f, xs) >= 0
  {
    if xs != [] {
      SumNonNegative(f, xs[1..]);
    }
  }

  /** A positive sum has a positive term. */
  lemma {:induction false} SumWitness<T>(f: T -> int, xs: seq<T>) returns (i: nat)
    requires Sum(f, xs) > 0
    ensures i < |xs| && f(xs[i]) > 0
  {
    if f(xs[0]) > 0 {
      i := 0;
    } else {
      i := SumWitness(f, xs[1..]);
      i := i + 1;
    }
  }
}
