/** Sorting by a real key, largest first: list.sort(reverse=True) and sort_values. */
module Ranking {
  import opened Basics

  function Insert<T>(xs: seq<T>, x: T, key: T -> real): seq<T> {
    if xs == [] then [x]
    else if key(xs[|xs| - 1]) >= key(x) then xs + [x]
    else Insert(xs[..|xs| - 1], x, key) + [xs[|xs| - 1]]
  }

  /** Stable: equal keys keep their order. */
  function SortDesc<T>(xs: seq<T>, key: T -> real): seq<T> {
    if xs == [] then [] else Insert(SortDesc(xs[..|xs| - 1], key), xs[|xs| - 1], key)
  }

  predicate Descending<T>(xs: seq<T>, key: T -> real) {
    forall i, j :: 0 <= i < j < |xs| ==> key(xs[i]) >= key(xs[j])
  }

  lemma {:induction false} InsertMultiset<T>(xs: seq<T>, x: T, key: T -> real)
    ensures multiset(Insert(xs, x, key)) == multiset(xs) + multiset{x}
  {
    if xs != [] && key(xs[|xs| - 1]) < key(x) {
      var init, last := xs[..|xs| - 1], xs[|xs| - 1];
      InsertMultiset(init, x, key);
      assert xs == init + [last];
    }
  }

  lemma {:induction false} InsertDescending<T>(xs: seq<T>, x: T, key: T -> real)
    requires Descending(xs, key)
    ensures Descending(Insert(xs, x, key), key)
    ensures |Insert(xs, x, key)| == |xs| + 1
    ensures forall i :: 0 <= i < |Insert(xs, x, key)| ==> Insert(xs, x, key)[i] in xs || Insert(xs, x, key)[i] == x
  {
    if xs != [] && key(xs[|xs| - 1]) < key(x) {
      var init, last := xs[..|xs| - 1], xs[|xs| - 1];
      InsertDescending(init, x, key);
      var r := Insert(init, x, key);
      forall i | 0 <= i < |r| ensures key(r[i]) >= key(last) && (r[i] in xs || r[i] == x) {
        if r[i] in init {
          var j :| 0 <= j < |init| && init[j] == r[i];
          assert xs[j] == r[i];
        }
      }
    }
  }

  lemma {:induction false} SortMultiset<T>(xs: seq<T>, key: T -> real)
    ensures multiset(SortDesc(xs, key)) == multiset(xs)
  {
    if xs != [] {
      var init, last := xs[..|xs| - 1], xs[|xs| - 1];
      assert xs == init + [last];
      SortMultiset(init, key);
      InsertMultiset(SortDesc(init, key), last, key);
    }
  }

  lemma {:induction false} SortDescending<T>(xs: seq<T>, key: T -> real)
    ensures Descending(SortDesc(xs, key), key) && |SortDesc(xs, key)| == |xs|
  {
    if xs != [] {
      SortDescending(xs[..|xs| - 1], key);
      InsertDescending(SortDesc(xs[..|xs| - 1], key), xs[|xs| - 1], key);
    }
  }

  lemma SameMultisetIn<T>(xs: seq<T>, ys: seq<T>, x: T)
    requires multiset(xs) == multiset(ys)
    ensures x in xs <==> x in ys
  {
    assert x in xs <==> x in multiset(xs);
    assert x in ys <==> x in multiset(ys);
  }

  /** The first n of the ranking come from the list, and nothing outside them has a larger
      key than any of them. */
  lemma TopDominates<T>(xs: seq<T>, key: T -> real, n: nat)
    ensures var top := First(SortDesc(xs, key), n);
      && |top| == Min(n, |xs|)
      && (forall x :: x in top ==> x in xs)
      && (forall x, y :: x in top && y in xs && y !in top ==> key(x) >= key(y))
  {
    var sorted := SortDesc(xs, key);
    var top := First(sorted, n);
    SortDescending(xs, key);
    SortMultiset(xs, key);
    forall x | x in top ensures x in xs {
      var i :| 0 <= i < |top| && top[i] == x;
      assert sorted[i] == x;
      SameMultisetIn(sorted, xs, x);
    }
    forall x, y | x in top && y in xs ensures y in top || key(x) >= key(y) {
      SameMultisetIn(sorted, xs, y);
      var i :| 0 <= i < |top| && top[i] == x;
      var j :| 0 <= j < |sorted| && sorted[j] == y;
      assert sorted[i] == x;
      if j < |top| { assert top[j] == y; }
    }
  }

  /** With room for all of them none is left out. */
  lemma TopIsAll<T>(xs: seq<T>, key: T -> real, n: nat)
    requires |xs| <= n
    ensures multiset(First(SortDesc(xs, key), n)) == multiset(xs)
  {
    SortDescending(xs, key);
    SortMultiset(xs, key);
  }

  predicate Apart<T>(xs: seq<T>, name: T -> string) {
    forall i, j :: 0 <= i < j < |xs| ==> name(xs[i]) != name(xs[j])
  }

  lemma {:induction false} OnceEach<T>(xs: seq<T>, name: T -> string, x: T)
    requires Apart(xs, name)
    ensures multiset(xs)[x] <= 1
  {
    if xs != [] {
      var init, last := xs[..|xs| - 1], xs[|xs| - 1];
      assert xs == init + [last];
      OnceEach(init, name, x);
      assert forall i :: 0 <= i < |init| ==> name(init[i]) != name(last);
      assert last !in init;
    }
  }

  lemma TwiceThere<T>(xs: seq<T>, i: nat, j: nat)
    requires i < j < |xs| && xs[i] == xs[j]
    ensures multiset(xs)[xs[i]] >= 2
  {
    assert xs == xs[..j] + xs[j..];
    assert xs[..j][i] == xs[i] && xs[i] in multiset(xs[..j]);
    assert xs[j..][0] == xs[j] && xs[j] in multiset(xs[j..]);
  }

  /** Ranking keeps differently named things apart, and puts them in order. */
  lemma RankingApart<T>(xs: seq<T>, key: T -> real, name: T -> string, n: nat)
    requires Apart(xs, name)
    ensures Apart(First(SortDesc(xs, key), n), name) && Descending(First(SortDesc(xs, key), n), key)
  {
    var ys := SortDesc(xs, key);
    SortDescending(xs, key);
    SortMultiset(xs, key);
    forall i, j | 0 <= i < j < |ys| ensures name(ys[i]) != name(ys[j]) {
      SameMultisetIn(ys, xs, ys[i]);
      SameMultisetIn(ys, xs, ys[j]);
      if name(ys[i]) == name(ys[j]) {
        assert ys[i] == ys[j];
        TwiceThere(ys, i, j);
        OnceEach(xs, name, ys[i]);
      }
    }
  }

  lemma {:induction false} WhereConcat<T>(a: seq<T>, b: seq<T>, p: T -> bool)
    ensures Where(a + b, p) == Where(a, p) + Where(b, p)
  {
    if b == [] {
      assert a + b == a;
    } else {
      WhereConcat(a, b[..|b| - 1], p);
      assert (a + b)[..|a + b| - 1] == a + b[..|b| - 1];
    }
  }

  lemma WhereOne<T>(x: T, p: T -> bool)
    ensures Where([x], p) == if p(x) then [x] else []
  {
  }

  /** Inserting goes behind the equal keys. */
  lemma {:induction false} InsertStable<T>(xs: seq<T>, x: T, key: T -> real, k: real)
    ensures Where(Insert(xs, x, key), (y: T) => key(y) == k) == Where(xs + [x], (y: T) => key(y) == k)
  {
    var p := (y: T) => key(y) == k;
    if xs != [] && key(xs[|xs| - 1]) < key(x) {
      var init, last := xs[..|xs| - 1], xs[|xs| - 1];
      InsertStable(init, x, key, k);
      WhereConcat(Insert(init, x, key), [last], p);
      Swapped(init, last, x, p);
      assert xs == init + [last];
    } else if xs == [] {
      assert xs + [x] == [x];
    }
  }

  /** Two things that do not both pass may change places. */
  lemma Swapped<T>(init: seq<T>, a: T, b: T, p: T -> bool)
    requires !(p(a) && p(b))
    ensures Where(init + [a] + [b], p) == Where(init + [b], p) + Where([a], p)
  {
    WhereConcat(init + [a], [b], p);
    WhereConcat(init, [a], p);
    WhereConcat(init, [b], p);
    WhereOne(a, p);
    WhereOne(b, p);
  }

  /** Things of one key keep their order. */
  lemma {:induction false} SortStable<T>(xs: seq<T>, key: T -> real, k: real)
    ensures Where(SortDesc(xs, key), (y: T) => key(y) == k) == Where(xs, (y: T) => key(y) == k)
  {
    if xs != [] {
      var init, last := xs[..|xs| - 1], xs[|xs| - 1];
      var p := (y: T) => key(y) == k;
      SortStable(init, key, k);
      InsertStable(SortDesc(init, key), last, key, k);
      WhereConcat(SortDesc(init, key), [last], p);
      WhereConcat(init, [last], p);
      assert xs == init + [last];
    }
  }
}
