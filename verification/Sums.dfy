/** Totals over the processes of a system, indexed by process number. */
module Sums {

  function Sum<T>(f: T -> nat, xs: seq<T>): nat
  {
    if xs == [] then 0 else f(xs[0]) + Sum(f, xs[1..])
  }

  /** Changing one process changes the total by the difference of its terms. */
  lemma {:induction false} SumUpdate<T>(f: T -> nat, xs: seq<T>, i: nat, x: T)
    requires i < |xs|
    ensures Sum(f, xs[i := x]) + f(xs[i]) == Sum(f, xs) + f(x)
  {
    if i == 0 {
      assert xs[i := x][1..] == xs[1..];
    } else {
      assert xs[i := x][1..] == xs[1..][i - 1 := x];
      SumUpdate(f, xs[1..], i - 1, x);
    }
  }

  lemma {:induction false} SumAppend<T>(f: T -> nat, xs: seq<T>, x: T)
    ensures Sum(f, xs + [x]) == Sum(f, xs) + f(x)
  {
    if xs == [] {
      assert xs + [x] == [x] && [x][1..] == [];
    } else {
      assert (xs + [x])[1..] == xs[1..] + [x];
      SumAppend(f, xs[1..], x);
    }
  }

  lemma {:induction false} SumAtLeast<T>(f: T -> nat, xs: seq<T>, i: nat)
    requires i < |xs|
    ensures f(xs[i]) <= Sum(f, xs)
  {
    if i > 0 {
      SumAtLeast(f, xs[1..], i - 1);
    }
  }

  /** A positive total has a process that contributes to it. */
  lemma {:induction false} SumPositive<T>(f: T -> nat, xs: seq<T>) returns (i: nat)
    requires Sum(f, xs) > 0
    ensures i < |xs| && f(xs[i]) > 0
  {
    if f(xs[0]) > 0 {
      i := 0;
    } else {
      i := SumPositive(f, xs[1..]);
      i := i + 1;
    }
  }

  lemma {:induction false} SumBound<T>(f: T -> nat, xs: seq<T>, c: nat)
    requires forall i :: 0 <= i < |xs| ==> f(xs[i]) <= c
    ensures Sum(f, xs) <= c * |xs|
  {
    if xs != [] {
      SumBound(f, xs[1..], c);
      assert c * |xs| == c + c * |xs[1..]|;
    }
  }

  /** A count of all the processes has every process in it. */
  lemma {:induction false} SumFull<T>(f: T -> nat, xs: seq<T>)
    requires forall i :: 0 <= i < |xs| ==> f(xs[i]) <= 1
    requires Sum(f, xs) >= |xs|
    ensures forall i :: 0 <= i < |xs| ==> f(xs[i]) == 1
  {
    if xs != [] {
      SumBound(f, xs[1..], 1);
      SumFull(f, xs[1..]);
      forall i | 0 <= i < |xs|
        ensures f(xs[i]) == 1
      {
        if i > 0 {
          assert xs[i] == xs[1..][i - 1];
        }
      }
    }
  }
}
