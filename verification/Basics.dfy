/** Vocabulary shared by the models of the several components. */
module Basics {
  datatype Option<+T> = None | Some(value: T) {
    function GetOr(default: T): T { if None? then default else value }
  }

  function Min(a: int, b: int): int { if a <= b then a else b }

  function Max(a: int, b: int): int { if a <= b then b else a }

  function One(b: bool): nat { if b then 1 else 0 }

  function Abs(x: real): real { if x < 0.0 then -x else x }

  /** xs[:n] */
  function First<T>(xs: seq<T>, n: nat): (r: seq<T>)
    ensures |r| == Min(n, |xs|) && forall i :: 0 <= i < |r| ==> r[i] == xs[i]
  {
    if |xs| <= n then xs else xs[..n]
  }

  function Map<T, U>(xs: seq<T>, f: T -> U): (r: seq<U>)
    ensures |r| == |xs| && forall i :: 0 <= i < |r| ==> r[i] == f(xs[i])
  {
    seq(|xs|, i requires 0 <= i < |xs| => f(xs[i]))
  }

  lemma MapSnoc<T, U>(xs: seq<T>, f: T -> U)
    requires xs != []
    ensures Map(xs, f) == Map(xs[..|xs| - 1], f) + [f(xs[|xs| - 1])]
  {
  }

  predicate Distinct<T(==)>(xs: seq<T>) {
    forall i, j :: 0 <= i < j < |xs| ==> xs[i] != xs[j]
  }

  function Reversed<T>(xs: seq<T>): (r: seq<T>)
    ensures |r| == |xs| && forall i :: 0 <= i < |r| ==> r[i] == xs[|xs| - 1 - i]
  {
    seq(|xs|, i requires 0 <= i < |xs| => xs[|xs| - 1 - i])
  }

  /** The rows that pass the test, in order. */
  function Where<T>(rows: seq<T>, p: T -> bool): seq<T> {
    if rows == [] then []
    else Where(rows[..|rows| - 1], p) + if p(rows[|rows| - 1]) then [rows[|rows| - 1]] else []
  }

  lemma {:induction false} WhereIn<T>(rows: seq<T>, p: T -> bool, x: T)
    ensures x in Where(rows, p) <==> x in rows && p(x)
  {
    if rows != [] {
      WhereIn(rows[..|rows| - 1], p, x);
      assert rows == rows[..|rows| - 1] + [rows[|rows| - 1]];
    }
  }

  lemma {:induction false} WhereCounts<T>(rows: seq<T>, p: T -> bool, x: T)
    ensures multiset(Where(rows, p))[x] == if p(x) then multiset(rows)[x] else 0
  {
    if rows != [] {
      WhereCounts(rows[..|rows| - 1], p, x);
      assert rows == rows[..|rows| - 1] + [rows[|rows| - 1]];
    }
  }

  // ---- what a loop keeps of a list ----

  predicate Increasing(from: seq<nat>) { forall i, j :: 0 <= i < j < |from| ==> from[i] < from[j] }

  /** `out` is what the first n positions make, in order: each that makes something is among
      `from`, and no other. */
  predicate Picks<T(==)>(n: nat, made: nat -> Option<T>, from: seq<nat>, out: seq<T>) {
    && Increasing(from) && |out| == |from|
    && (forall i :: 0 <= i < |from| ==> from[i] < n && made(from[i]) == Some(out[i]))
    && (forall k :: 0 <= k < n && made(k).Some? ==> k in from)
  }

  lemma PicksMore<T>(n: nat, made: nat -> Option<T>, from: seq<nat>, out: seq<T>)
    requires Picks(n, made, from, out)
    ensures made(n).Some? ==> Picks(n + 1, made, from + [n], out + [made(n).value])
    ensures made(n).None? ==> Picks(n + 1, made, from, out)
  {
  }

  lemma PicksSame<T>(n: nat, made: nat -> Option<T>, made': nat -> Option<T>, from: seq<nat>, out: seq<T>)
    requires Picks(n, made, from, out) && forall k: nat :: k < n ==> made(k) == made'(k)
    ensures Picks(n, made', from, out)
  {
  }
}
