/** Sums of a per-thread quantity over all threads of a step system. */
module Sums {

  ghost function Sum<A>(xs: seq<A>, f: A -> nat): nat {
    if xs == [] then 0 else f(xs[0]) + Sum(xs[1..], f)
  }

  /** One thread moves, the others keep their share. */
  lemma {:induction false} SumUpdate<A>(xs: seq<A>, i: nat, x: A, f: A -> nat)
    requires i < |xs|
    ensures Sum(xs[i := x], f) + f(xs[i]) == Sum(xs, f) + f(x)
  {
    if i > 0 {
      SumUpdate(xs[1..], i - 1, x, f);
      assert xs[i := x][1..] == xs[1..][i - 1 := x];
    } else {
      assert xs[i := x][1..] == xs[1..];
    }
  }

  lemma {:induction false} SumPointwise<A>(xs: seq<A>, ys: seq<A>, f: A -> nat)
    requires |xs| == |ys|
    requires forall i | 0 <= i < |xs| :: f(xs[i]) == f(ys[i])
    ensures Sum(xs, f) == Sum(ys, f)
  {
    if xs != [] {
      SumPointwise(xs[1..], ys[1..], f);
    }
  }

  lemma {:induction false} SumMember<A>(xs: seq<A>, i: nat, f: A -> nat)
    requires i < |xs|
    ensures f(xs[i]) <= Sum(xs, f)
  {
    if i > 0 {
      SumMember(xs[1..], i - 1, f);
    }
  }

  lemma {:induction false} SumZero<A>(xs: seq<A>, f: A -> nat)
    ensures Sum(xs, f) == 0 <==> forall i | 0 <= i < |xs| :: f(xs[i]) == 0
  {
    if xs != [] {
      SumZero(xs[1..], f);
      assert forall i | 1 <= i < |xs| :: xs[i] == xs[1..][i - 1];
    }
  }
}
