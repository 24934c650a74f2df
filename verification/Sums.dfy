/** Sums of a sequence of numbers and sizes of sets, for measures that add up over ranks, slots or messages. */
module Sums {
  import opened Arithmetic

  function Sum(xs: seq<int>): int { if xs == [] then 0 else Sum(xs[..|xs| - 1]) + xs[|xs| - 1] }

  lemma {:induction false} SumOfUpdate(xs: seq<int>, i: nat, x: int)
    requires i < |xs|
    ensures Sum(xs[i := x]) == Sum(xs) - xs[i] + x
  {
    var n := |xs| - 1;
    if i == n {
      assert xs[i := x][..n] == xs[..n];
    } else {
      SumOfUpdate(xs[..n], i, x);
      assert xs[i := x][..n] == xs[..n][i := x];
    }
  }

  lemma SumAppend(xs: seq<int>, x: int)
    ensures Sum(xs + [x]) == Sum(xs) + x
  {
    assert (xs + [x])[..|xs|] == xs;
  }

  lemma {:induction false} SumRemove(xs: seq<int>, i: nat)
    requires i < |xs|
    ensures Sum(xs[..i] + xs[i + 1..]) == Sum(xs) - xs[i]
  {
    var n := |xs| - 1;
    if i == n {
      assert xs[..i] + xs[i + 1..] == xs[..n];
    } else {
      SumRemove(xs[..n], i);
      assert (xs[..i] + xs[i + 1..])[..n - 1] == xs[..n][..i] + xs[..n][i + 1..];
    }
  }

  lemma {:induction false} SumBounded(xs: seq<int>, m: nat)
    requires forall i | 0 <= i < |xs| :: xs[i] <= m
    ensures Sum(xs) <= Times(|xs|, m)
  {
    if xs != [] { SumBounded(xs[..|xs| - 1], m); }
  }

  lemma {:induction false} SumNonNegative(xs: seq<int>)
    requires forall i | 0 <= i < |xs| :: xs[i] >= 0
    ensures Sum(xs) >= 0
  {
    if xs != [] { SumNonNegative(xs[..|xs| - 1]); }
  }

  lemma {:induction false} SumOfSame(xs: seq<int>, m: nat)
    requires forall i | 0 <= i < |xs| :: xs[i] == m
    ensures Sum(xs) == Times(|xs|, m)
  {
    if xs != [] { SumOfSame(xs[..|xs| - 1], m); }
  }

  lemma {:induction false} SumOfZeros(xs: seq<int>)
    requires forall i | 0 <= i < |xs| :: xs[i] == 0
    ensures Sum(xs) == 0
  {
    if xs != [] { SumOfZeros(xs[..|xs| - 1]); }
  }

  lemma SubsetSize<T>(a: set<T>, b: set<T>)
    requires a <= b
    ensures |a| <= |b|
  {
    assert b == a + (b - a);
  }
}
