/** Ordered collections: the byte order of Rust strings, a stable sort, and the
    ascending key walk of a `BTreeMap`. */
module Ordering {

  datatype Option<+T> = None | Some(value: T)

  function Min(a: int, b: int): int { if a < b then a else b }
  function Max(a: int, b: int): int { if a < b then b else a }

  /** Lexicographic order on strings. */
  predicate StrLeq(a: string, b: string) {
    a == [] || (b != [] && (a[0] < b[0] || (a[0] == b[0] && StrLeq(a[1..], b[1..]))))
  }

  lemma {:induction false} StrLeqTotal(a: string, b: string)
    ensures StrLeq(a, b) || StrLeq(b, a)
  {
    if a != [] && b != [] {
      StrLeqTotal(a[1..], b[1..]);
    }
  }

  lemma {:induction false} StrLeqAntisymmetric(a: string, b: string)
    requires StrLeq(a, b) && StrLeq(b, a)
    ensures a == b
  {
    if a != [] {
      StrLeqAntisymmetric(a[1..], b[1..]);
      assert a == [a[0]] + a[1..] && b == [b[0]] + b[1..];
    }
  }

  lemma {:induction false} StrLeqTransitive(a: string, b: string, c: string)
    requires StrLeq(a, b) && StrLeq(b, c)
    ensures StrLeq(a, c)
  {
    if a != [] && a[0] == b[0] == c[0] {
      StrLeqTransitive(a[1..], b[1..], c[1..]);
    }
  }

  // ----- stable sort -----

  ghost predicate Preorder<T(!new)>(le: (T, T) -> bool) {
    && (forall x, y :: le(x, y) || le(y, x))
    && (forall x, y, z :: le(x, y) && le(y, z) ==> le(x, z))
  }

  ghost predicate SortedBy<T>(xs: seq<T>, le: (T, T) -> bool) {
    forall i, j | 0 <= i < j < |xs| :: le(xs[i], xs[j])
  }

  function Insert<T>(x: T, xs: seq<T>, le: (T, T) -> bool): seq<T> {
    if xs == [] || le(x, xs[0]) then [x] + xs else [xs[0]] + Insert(x, xs[1..], le)
  }

  /** Stable: an element is put before the later elements it ties with. */
  function Sort<T>(xs: seq<T>, le: (T, T) -> bool): seq<T> {
    if xs == [] then [] else Insert(xs[0], Sort(xs[1..], le), le)
  }

  lemma {:induction false} InsertSorts<T(!new)>(x: T, xs: seq<T>, le: (T, T) -> bool)
    requires Preorder(le) && SortedBy(xs, le)
    ensures SortedBy(Insert(x, xs, le), le)
    ensures multiset(Insert(x, xs, le)) == multiset{x} + multiset(xs)
  {
    if xs == [] {
    } else if le(x, xs[0]) {
      assert forall i | 0 <= i < |xs| :: le(xs[0], xs[i]) by { assert le(xs[0], xs[0]); }
    } else {
      var rest := Insert(x, xs[1..], le);
      InsertSorts(x, xs[1..], le);
      assert xs == [xs[0]] + xs[1..];
      forall i | 0 <= i < |rest| ensures le(xs[0], rest[i]) {
        assert rest[i] in multiset(rest);
        assert rest[i] == x || rest[i] in xs[1..];
      }
    }
  }

  lemma {:induction false} SortSorts<T(!new)>(xs: seq<T>, le: (T, T) -> bool)
    requires Preorder(le)
    ensures SortedBy(Sort(xs, le), le)
    ensures multiset(Sort(xs, le)) == multiset(xs)
    ensures |Sort(xs, le)| == |xs|
    ensures forall x :: x in Sort(xs, le) <==> x in xs
  {
    if xs != [] {
      SortSorts(xs[1..], le);
      InsertSorts(xs[0], Sort(xs[1..], le), le);
      assert xs == [xs[0]] + xs[1..];
    }
    SameElements(Sort(xs, le), xs);
  }

  lemma SameElements<T>(a: seq<T>, b: seq<T>)
    requires multiset(a) == multiset(b)
    ensures |a| == |b|
    ensures forall x :: x in a <==> x in b
  {
    assert |a| == |multiset(a)| && |b| == |multiset(b)|;
    forall x ensures x in a <==> x in b {
      assert x in a <==> x in multiset(a);
    }
  }

  lemma SortedHead<T(!new)>(a: seq<T>, b: seq<T>, le: (T, T) -> bool)
    requires a != [] && b != [] && a[0] in b && b[0] in a
    requires SortedBy(a, le) && SortedBy(b, le)
    requires forall x, y | x in a && y in a && le(x, y) && le(y, x) :: x == y
    ensures a[0] == b[0]
  {}

  lemma MultisetTail<T>(a: seq<T>)
    requires a != []
    ensures multiset(a[1..]) == multiset(a) - multiset{a[0]}
  {
    assert a == [a[0]] + a[1..];
  }

  /** Two sorted arrangements of the same elements are equal when ties are. */
  lemma {:induction false} SortedUnique<T(!new)>(a: seq<T>, b: seq<T>, le: (T, T) -> bool)
    requires SortedBy(a, le) && SortedBy(b, le) && multiset(a) == multiset(b)
    requires forall x, y | x in a && y in a && le(x, y) && le(y, x) :: x == y
    ensures a == b
  {
    SameElements(a, b);
    if a != [] {
      SortedHead(a, b, le);
      MultisetTail(a);
      MultisetTail(b);
      SortedUnique(a[1..], b[1..], le);
      assert a == [a[0]] + a[1..] && b == [b[0]] + b[1..];
    }
  }

  // ----- ascending key walk -----

  ghost predicate Increasing(ks: seq<string>) {
    forall i, j | 0 <= i < j < |ks| :: StrLeq(ks[i], ks[j]) && ks[i] != ks[j]
  }

  lemma IncreasingCons(x: string, rest: seq<string>)
    requires Increasing(rest) && forall y | y in rest :: StrLeq(x, y) && y != x
    ensures Increasing([x] + rest)
  {
    assert forall i | 0 <= i < |rest| :: rest[i] in rest;
  }

  lemma {:induction false} MinKeyExists(s: set<string>) returns (m: string)
    requires s != {}
    ensures m in s && forall k | k in s :: StrLeq(m, k)
  {
    var x :| x in s;
    if s == {x} {
      StrLeqTotal(x, x);
      m := x;
    } else {
      var n := MinKeyExists(s - {x});
      StrLeqTotal(x, n);
      StrLeqTotal(x, x);
      m := if StrLeq(x, n) then x else n;
      forall k | k in s ensures StrLeq(m, k) {
        if k != x { StrLeqTransitive(m, n, k); }
      }
    }
  }

  function MinKey(s: set<string>): (m: string)
    requires s != {}
    ensures m in s && forall k | k in s :: StrLeq(m, k)
  {
    assert exists m :: m in s && forall k | k in s :: StrLeq(m, k) by {
      var m := MinKeyExists(s);
    }
    assert forall a, b | StrLeq(a, b) && StrLeq(b, a) :: a == b by {
      forall a, b | StrLeq(a, b) && StrLeq(b, a) ensures a == b { StrLeqAntisymmetric(a, b); }
    }
    var m :| m in s && forall k | k in s :: StrLeq(m, k);
    m
  }

  /** The keys of a set in the order a `BTreeMap` visits them. */
  function SortedKeys(s: set<string>): (ks: seq<string>)
    ensures forall k :: k in ks <==> k in s
  {
    if s == {} then [] else
      var m := MinKey(s);
      var rest := SortedKeys(s - {m});
      [m] + rest
  }

  lemma {:induction false} SortedKeysIncrease(s: set<string>)
    ensures Increasing(SortedKeys(s))
    ensures |SortedKeys(s)| == |s|
  {
    if s != {} {
      var m := MinKey(s);
      var rest := SortedKeys(s - {m});
      SortedKeysIncrease(s - {m});
      assert SortedKeys(s) == [m] + rest;
      forall i | 0 <= i < |rest| ensures StrLeq(m, rest[i]) && m != rest[i] {
        assert rest[i] in rest;
      }
    }
  }

  lemma InTail<T>(a: seq<T>, x: T)
    requires a != [] && x in a && x != a[0]
    ensures x in a[1..]
  {
    var i :| 0 <= i < |a| && a[i] == x;
    assert a[1..][i - 1] == x;
  }

  /** The ascending walk of a set of keys is the only one. */
  lemma {:induction false} IncreasingUnique(a: seq<string>, b: seq<string>)
    requires Increasing(a) && Increasing(b)
    requires forall k :: k in a <==> k in b
    ensures a == b
  {
    assert a != [] ==> a[0] in b;
    assert b != [] ==> b[0] in a;
    if a != [] {
      if a[0] != b[0] {
        InTail(a, b[0]);
        InTail(b, a[0]);
        StrLeqAntisymmetric(a[0], b[0]);
      }
      forall k ensures k in a[1..] <==> k in b[1..] {
        if k in a[1..] { assert k in b && k != a[0]; InTail(b, k); }
        if k in b[1..] { assert k in a && k != b[0]; InTail(a, k); }
      }
      IncreasingUnique(a[1..], b[1..]);
      assert a == [a[0]] + a[1..] && b == [b[0]] + b[1..];
    }
  }
}
