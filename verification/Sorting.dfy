/** Stable sorting by rank, as the library sort used for every plan. */
module Sorting {
  import opened Basics

  /** No element is strictly before an earlier one. */
  ghost predicate SortedBy<T>(xs: seq<T>, key: T -> Rank) {
    forall i, j :: 0 <= i < j < |xs| ==> !Before(key(xs[j]), key(xs[i]))
  }

  /** Puts `x` after every element it is not strictly before. */
  function InsertLast<T>(xs: seq<T>, x: T, key: T -> Rank): (r: seq<T>)
    ensures multiset(r) == multiset(xs) + multiset{x}
  {
    if xs == [] || !Before(key(x), key(xs[|xs| - 1])) then xs + [x]
    else
      assert xs == xs[..|xs| - 1] + [xs[|xs| - 1]];
      InsertLast(xs[..|xs| - 1], x, key) + [xs[|xs| - 1]]
  }

  function StableSort<T>(xs: seq<T>, key: T -> Rank): (r: seq<T>)
    ensures multiset(r) == multiset(xs)
  {
    if xs == [] then []
    else
      assert xs == xs[..|xs| - 1] + [xs[|xs| - 1]];
      InsertLast(StableSort(xs[..|xs| - 1], key), xs[|xs| - 1], key)
  }

  lemma SameMembers<T>(xs: seq<T>, ys: seq<T>)
    requires multiset(xs) == multiset(ys)
    ensures |xs| == |ys| && forall x :: x in xs <==> x in ys
  {
    assert |multiset(xs)| == |multiset(ys)|;
    forall x ensures x in xs <==> x in ys {
      assert x in xs <==> x in multiset(xs);
      assert x in ys <==> x in multiset(ys);
    }
  }

  lemma NotBeforeIsTransitive(a: Rank, b: Rank, c: Rank)
    requires !Before(b, a) && !Before(c, b)
    ensures !Before(c, a)
  {
    if Before(c, a) {
      BeforeIsTotal(a, b);
      BeforeIsTotal(b, c);
      if a == b || b == c {
      } else {
        BeforeIsTransitive(a, b, c);
        BeforeIsTotal(a, c);
      }
    }
  }

  lemma {:induction false} InsertLastKeepsOrder<T>(xs: seq<T>, x: T, key: T -> Rank)
    requires SortedBy(xs, key)
    ensures SortedBy(InsertLast(xs, x, key), key)
  {
    BeforeIsTotal(key(x), key(x));
    var r := InsertLast(xs, x, key);
    if xs == [] {
    } else if !Before(key(x), key(xs[|xs| - 1])) {
      forall i | 0 <= i < |xs| ensures !Before(key(x), key(xs[i])) {
        BeforeIsTotal(key(xs[i]), key(xs[i]));
        NotBeforeIsTransitive(key(xs[i]), key(xs[|xs| - 1]), key(x));
      }
    } else {
      var last := xs[|xs| - 1];
      var init := xs[..|xs| - 1];
      InsertLastKeepsOrder(init, x, key);
      SameMembers(InsertLast(init, x, key), init + [x]);
      BeforeIsTotal(key(x), key(last));
      forall i | 0 <= i < |init| + 1 ensures !Before(key(last), key(r[i])) {
        assert r[i] == InsertLast(init, x, key)[i];
        assert r[i] in InsertLast(init, x, key);
        assert r[i] in multiset(InsertLast(init, x, key));
        if r[i] != x {
          var k :| 0 <= k < |init| && init[k] == r[i];
          assert xs[k] == r[i];
        }
      }
    }
  }

  lemma {:induction false} StableSortSorts<T>(xs: seq<T>, key: T -> Rank)
    ensures SortedBy(StableSort(xs, key), key)
  {
    if xs != [] {
      StableSortSorts(xs[..|xs| - 1], key);
      InsertLastKeepsOrder(StableSort(xs[..|xs| - 1], key), xs[|xs| - 1], key);
    }
  }

  lemma SortKeepsDistinct<T>(xs: seq<T>, ys: seq<T>)
    requires multiset(xs) == multiset(ys)
    requires forall i, j :: 0 <= i < j < |xs| ==> xs[i] != xs[j]
    ensures forall i, j :: 0 <= i < j < |ys| ==> ys[i] != ys[j]
  {
    forall i, j | 0 <= i < j < |ys| ensures ys[i] != ys[j] {
      if ys[i] == ys[j] {
        MultiplicityOfRepeated(ys, i, j);
        MultiplicityOfDistinct(xs, ys[i]);
      }
    }
  }

  lemma MultiplicityOfRepeated<T>(ys: seq<T>, i: nat, j: nat)
    requires i < j < |ys| && ys[i] == ys[j]
    ensures multiset(ys)[ys[i]] >= 2
  {
    assert ys == ys[..j] + [ys[j]] + ys[j + 1..];
    assert ys[i] == ys[..j][i];
    assert ys[i] in multiset(ys[..j]);
  }

  lemma {:induction false} MultiplicityOfDistinct<T>(xs: seq<T>, x: T)
    requires forall i, j :: 0 <= i < j < |xs| ==> xs[i] != xs[j]
    ensures multiset(xs)[x] <= 1
  {
    if xs != [] {
      var init := xs[..|xs| - 1];
      MultiplicityOfDistinct(init, x);
      assert xs == init + [xs[|xs| - 1]];
      assert xs[|xs| - 1] !in init;
    }
  }
}
