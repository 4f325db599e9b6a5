/** Sums over lists, and how they change when a list does. */
module Sums {

  function SumBy<T>(xs: seq<T>, f: T -> int): int {
    if xs == [] then 0 else f(xs[0]) + SumBy(xs[1..], f)
  }

  lemma {:induction false} SumByUpdate<T>(xs: seq<T>, f: T -> int, i: nat, x: T)
    requires i < |xs|
    ensures SumBy(xs[i := x], f) == SumBy(xs, f) - f(xs[i]) + f(x)
  {
    if i == 0 {
      assert xs[i := x][1..] == xs[1..];
    } else {
      SumByUpdate(xs[1..], f, i - 1, x);
      assert xs[i := x][1..] == xs[1..][i - 1 := x];
    }
  }

  lemma {:induction false} SumByAppend<T>(xs: seq<T>, f: T -> int, x: T)
    ensures SumBy(xs + [x], f) == SumBy(xs, f) + f(x)
  {
    if xs == [] {
      assert (xs + [x])[1..] == [];
    } else {
      SumByAppend(xs[1..], f, x);
      assert (xs + [x])[1..] == xs[1..] + [x];
    }
  }

  /** A sum of numbers that are not negative is at least each of them. */
  lemma {:induction false} SumByAtLeast<T>(xs: seq<T>, f: T -> int, i: nat)
    requires i <= |xs| && forall j :: 0 <= j < |xs| ==> f(xs[j]) >= 0
    ensures SumBy(xs, f) >= 0 && (i < |xs| ==> SumBy(xs, f) >= f(xs[i]))
  {
    if xs != [] {
      assert forall j :: 0 <= j < |xs[1..]| ==> xs[1..][j] == xs[j + 1];
      SumByAtLeast(xs[1..], f, if i > 0 then i - 1 else 0);
    }
  }

  lemma {:induction false} SumByRemove<T>(xs: seq<T>, f: T -> int, i: nat)
    requires i < |xs|
    ensures SumBy(xs[..i] + xs[i + 1..], f) == SumBy(xs, f) - f(xs[i])
  {
    if i == 0 {
      assert xs[..0] + xs[1..] == xs[1..];
    } else {
      SumByRemove(xs[1..], f, i - 1);
      assert (xs[..i] + xs[i + 1..])[1..] == xs[1..][..i - 1] + xs[1..][i..];
    }
  }
}
