/** Filtering message sequences, and sequences without repetition. */
module Sequences {

  /** The elements of `xs` that satisfy `keep`, in order. */
  function Filter<T(!new)>(keep: T -> bool, xs: seq<T>): (r: seq<T>)
    ensures |r| <= |xs|
    ensures forall x :: x in r <==> x in xs && keep(x)
  {
    if xs == [] then [] else (if keep(xs[0]) then [xs[0]] else []) + Filter(keep, xs[1..])
  }

  lemma {:induction false} FilterAppend<T(!new)>(keep: T -> bool, xs: seq<T>, ys: seq<T>)
    ensures Filter(keep, xs + ys) == Filter(keep, xs) + Filter(keep, ys)
  {
    if xs == [] {
      assert xs + ys == ys;
    } else {
      assert (xs + ys)[1..] == xs[1..] + ys;
      FilterAppend(keep, xs[1..], ys);
    }
  }

  lemma FilterOne<T(!new)>(keep: T -> bool, x: T)
    ensures Filter(keep, [x]) == if keep(x) then [x] else []
  {
    assert [x][1..] == [];
  }

  lemma FilterPush<T(!new)>(keep: T -> bool, xs: seq<T>, x: T)
    ensures Filter(keep, xs + [x]) == Filter(keep, xs) + if keep(x) then [x] else []
  {
    FilterAppend(keep, xs, [x]);
    FilterOne(keep, x);
  }

  /** Filtering commutes with restricting to a prefix of the original. */
  lemma FilterSplit<T(!new)>(keep: T -> bool, xs: seq<T>, n: nat)
    requires n <= |xs|
    ensures Filter(keep, xs) == Filter(keep, xs[..n]) + Filter(keep, xs[n..])
  {
    assert xs == xs[..n] + xs[n..];
    FilterAppend(keep, xs[..n], xs[n..]);
  }

  ghost predicate Distinct<T>(xs: seq<T>) {
    forall i, j :: 0 <= i < j < |xs| ==> xs[i] != xs[j]
  }

  lemma DistinctPush<T>(xs: seq<T>, x: T)
    requires Distinct(xs) && x !in xs
    ensures Distinct(xs + [x])
  {
  }

  /** In a sequence without repetition nothing before a position recurs from it on. */
  lemma DistinctParts<T>(xs: seq<T>, ys: seq<T>)
    requires Distinct(xs + ys)
    ensures Distinct(xs) && Distinct(ys)
    ensures forall x :: x in xs ==> x !in ys
  {
    var all := xs + ys;
    forall i, j | 0 <= i < j < |xs|
      ensures xs[i] != xs[j]
    {
      assert all[i] == xs[i] && all[j] == xs[j];
    }
    forall i, j | 0 <= i < j < |ys|
      ensures ys[i] != ys[j]
    {
      assert all[|xs| + i] == ys[i] && all[|xs| + j] == ys[j];
    }
    forall i, j | 0 <= i < |xs| && 0 <= j < |ys|
      ensures xs[i] != ys[j]
    {
      assert all[i] == xs[i] && all[|xs| + j] == ys[j];
    }
  }
}
