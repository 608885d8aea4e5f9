/** Filtering and duplicate counting on sequences. */
module Seqs {

  function Filter<T(!new)>(xs: seq<T>, keep: T -> bool): (r: seq<T>)
    ensures forall x :: x in r <==> x in xs && keep(x)
  {
    if xs == [] then [] else
      var rest := Filter(xs[1..], keep);
      assert forall x :: x in xs <==> x == xs[0] || x in xs[1..];
      if keep(xs[0]) then [xs[0]] + rest else rest
  }

  lemma {:induction false} FilterSame<T(!new)>(xs: seq<T>, p: T -> bool, q: T -> bool)
    requires forall x | x in xs :: p(x) == q(x)
    ensures Filter(xs, p) == Filter(xs, q)
  {
    if xs != [] {
      FilterSame(xs[1..], p, q);
    }
  }

  lemma {:induction false} FilterAll<T(!new)>(xs: seq<T>, p: T -> bool)
    requires forall x | x in xs :: p(x)
    ensures Filter(xs, p) == xs
  {
    if xs != [] {
      FilterAll(xs[1..], p);
    }
  }

  lemma {:induction false} FilterNone<T(!new)>(xs: seq<T>, p: T -> bool)
    requires forall x | x in xs :: !p(x)
    ensures Filter(xs, p) == []
  {
    if xs != [] {
      FilterNone(xs[1..], p);
    }
  }

  /** Two passes keep what one pass with the conjunction keeps. */
  lemma {:induction false} FilterTwice<T(!new)>(xs: seq<T>, p: T -> bool, q: T -> bool, both: T -> bool)
    requires forall x | x in xs :: both(x) == (p(x) && q(x))
    ensures Filter(Filter(xs, p), q) == Filter(xs, both)
  {
    if xs != [] {
      FilterTwice(xs[1..], p, q, both);
      if p(xs[0]) {
        assert Filter(xs, p)[1..] == Filter(xs[1..], p);
      }
    }
  }

  /** `r` is what `xs` keeps, in order and as often. */
  ghost predicate Thinned<T(!new)>(xs: seq<T>, r: seq<T>, keep: T -> bool) {
    if xs == [] then r == []
    else if keep(xs[0]) then r != [] && r[0] == xs[0] && Thinned(xs[1..], r[1..], keep)
    else Thinned(xs[1..], r, keep)
  }

  /** Two conditions that say the same of every element keep the same. */
  lemma {:induction false} FilterIsThinned<T(!new)>(xs: seq<T>, keep: T -> bool, same: T -> bool)
    requires forall x | x in xs :: keep(x) == same(x)
    ensures Thinned(xs, Filter(xs, keep), same)
  {
    if xs != [] {
      FilterIsThinned(xs[1..], keep, same);
      assert keep(xs[0]) ==> Filter(xs, keep)[1..] == Filter(xs[1..], keep);
    }
  }

  lemma {:induction false} FilterCount<T(!new)>(xs: seq<T>, p: T -> bool, x: T)
    ensures multiset(Filter(xs, p))[x] == if p(x) then multiset(xs)[x] else 0
  {
    if xs != [] {
      FilterCount(xs[1..], p, x);
      assert xs == [xs[0]] + xs[1..];
    }
  }

  /** No element occurs twice. */
  ghost predicate Unique<T(!new)>(xs: seq<T>) {
    forall x | x in xs :: multiset(xs)[x] == 1
  }

  lemma {:induction false} AllEqualCount<T(!new)>(xs: seq<T>, x: T)
    requires forall y | y in xs :: y == x
    ensures multiset(xs)[x] == |xs|
  {
    if xs != [] {
      assert xs == [xs[0]] + xs[1..] && xs[0] in xs;
      assert forall y | y in xs[1..] :: y in xs;
      AllEqualCount(xs[1..], x);
    }
  }

  lemma UniqueTail<T(!new)>(xs: seq<T>)
    requires xs != []
    ensures Unique(xs) <==> xs[0] !in xs[1..] && Unique(xs[1..])
  {
    assert xs == [xs[0]] + xs[1..];
    forall x ensures multiset(xs)[x] == multiset(xs[1..])[x] + if x == xs[0] then 1 else 0 {}
    assert xs[0] in xs[1..] <==> multiset(xs[1..])[xs[0]] > 0;
    assert forall x :: x in xs <==> x == xs[0] || x in xs[1..];
    assert xs[0] in xs;
    assert forall x | x in xs[1..] :: x in xs;
  }

  lemma {:induction false} UniqueDistinct<T(!new)>(xs: seq<T>)
    ensures Unique(xs) <==> forall i, j | 0 <= i < j < |xs| :: xs[i] != xs[j]
  {
    if xs != [] {
      UniqueTail(xs);
      UniqueDistinct(xs[1..]);
      if forall i, j | 0 <= i < j < |xs[1..]| :: xs[1..][i] != xs[1..][j] {
        forall i, j | 0 < i < j < |xs| ensures xs[i] != xs[j] {
          assert xs[1..][i - 1] != xs[1..][j - 1];
        }
      }
      if forall i, j | 0 <= i < j < |xs| :: xs[i] != xs[j] {
        forall i, j | 0 <= i < j < |xs[1..]| ensures xs[1..][i] != xs[1..][j] {
          assert xs[i + 1] != xs[j + 1];
        }
      }
      assert xs[0] in xs[1..] <==> exists j | 1 <= j < |xs| :: xs[j] == xs[0];
    }
  }
}
