/** Shared value types and list helpers. */
module Prelude {

  datatype Option<+T> = None | Some(value: T) {
    function GetOr(default: T): T {
      match this
      case None => default
      case Some(v) => v
    }
  }

  /** Array.prototype.filter: the elements satisfying `keep`, in order. */
  function Filter<T(!new)>(keep: T -> bool, xs: seq<T>): (r: seq<T>)
    ensures forall x :: x in r <==> x in xs && keep(x)
    ensures |r| <= |xs|
    ensures |r| == |xs| ==> r == xs
  {
    if xs == [] then []
    else
      var rest := Filter(keep, xs[1..]);
      if keep(xs[0]) then [xs[0]] + rest else rest
  }

  lemma {:induction false} FilterAppends<T(!new)>(keep: T -> bool, a: seq<T>, b: seq<T>)
    ensures Filter(keep, a + b) == Filter(keep, a) + Filter(keep, b)
  {
    hide Filter;
    FilterFirst(keep, a);
    if a == [] {
      assert a + b == b && [] + Filter(keep, b) == Filter(keep, b);
    } else {
      FilterAppends(keep, a[1..], b);
      FilterFirst(keep, a + b);
      assert (a + b)[1..] == a[1..] + b;
      Associates(if keep(a[0]) then [a[0]] else [], Filter(keep, a[1..]), Filter(keep, b));
    }
  }

  lemma Associates<T>(a: seq<T>, b: seq<T>, c: seq<T>)
    ensures a + (b + c) == a + b + c
  {
  }

  lemma FilterFirst<T(!new)>(keep: T -> bool, xs: seq<T>)
    ensures Filter(keep, xs) == if xs == [] then [] else (if keep(xs[0]) then [xs[0]] else []) + Filter(keep, xs[1..])
  {
  }

  lemma {:induction false} FilterEmpty<T(!new)>(keep: T -> bool, xs: seq<T>)
    requires forall x | x in xs :: !keep(x)
    ensures Filter(keep, xs) == []
  {
    if xs != [] {
      FilterEmpty(keep, xs[1..]);
    }
  }

  lemma {:induction false} FilterEvery<T(!new)>(keep: T -> bool, xs: seq<T>)
    requires forall x | x in xs :: keep(x)
    ensures Filter(keep, xs) == xs
  {
    if xs != [] {
      FilterEvery(keep, xs[1..]);
    }
  }

  predicate NoDuplicates<T(==)>(xs: seq<T>) {
    forall i, j | 0 <= i < j < |xs| :: xs[i] != xs[j]
  }

  /** `[...new Set(xs)]`: every element once, in the order of its first occurrence. */
  function Distinct<T(==,!new)>(xs: seq<T>): (r: seq<T>)
    ensures forall x :: x in r <==> x in xs
    ensures NoDuplicates(r)
    ensures |r| <= |xs|
    ensures |r| == |xs| ==> r == xs
  {
    if xs == [] then []
    else
      var front := Distinct(xs[..|xs| - 1]);
      var last := xs[|xs| - 1];
      assert xs == xs[..|xs| - 1] + [last];
      if last in front then front else front + [last]
  }

  function Max(a: int, b: int): int { if a < b then b else a }

  function Min(a: int, b: int): int { if a < b then a else b }

  /** Array.prototype.slice(0, n) for a count that may exceed the length. */
  function Take<T>(xs: seq<T>, n: int): (r: seq<T>)
    ensures |r| == Min(Max(n, 0), |xs|)
    ensures r <= xs
  {
    xs[..Min(Max(n, 0), |xs|)]
  }

  /** A sequence without duplicates is no longer than a set that holds its elements. */
  lemma {:induction false} DistinctFits<T>(xs: seq<T>, s: set<T>)
    requires NoDuplicates(xs)
    requires forall x | x in xs :: x in s
    ensures |xs| <= |s|
  {
    if xs != [] {
      forall x | x in xs[1..] ensures x in s - {xs[0]} {
        var i :| 0 <= i < |xs[1..]| && xs[1..][i] == x;
        assert xs[i + 1] == x;
      }
      DistinctFits(xs[1..], s - {xs[0]});
    }
  }

  predicate IsLeast(m: nat, s: set<nat>) {
    m in s && forall y | y in s :: m <= y
  }

  lemma {:induction false} LeastExists(s: set<nat>) returns (m: nat)
    requires s != {}
    ensures IsLeast(m, s)
  {
    m :| m in s;
    if s != {m} {
      var rest := LeastExists(s - {m});
      assert forall y | y in s :: y == m || y in s - {m};
      m := if m < rest then m else rest;
    }
  }

  function Least(s: set<nat>): (m: nat)
    requires s != {}
    ensures IsLeast(m, s)
  {
    assert exists m: nat :: IsLeast(m, s) by { var m := LeastExists(s); }
    var m: nat :| IsLeast(m, s);
    m
  }

  /** A list as a table: each element under its key, the last one where keys repeat. */
  function Keyed<T(!new)>(xs: seq<T>, key: T -> nat): (r: map<nat, T>)
    ensures forall k | k in r :: r[k] in xs && key(r[k]) == k
    ensures forall x | x in xs :: key(x) in r
  {
    if xs == [] then map[]
    else
      assert xs == xs[..|xs| - 1] + [xs[|xs| - 1]];
      Keyed(xs[..|xs| - 1], key)[key(xs[|xs| - 1]) := xs[|xs| - 1]]
  }

  lemma KeyedNext<T(!new)>(xs: seq<T>, key: T -> nat, i: nat)
    requires i < |xs|
    ensures Keyed(xs[..i + 1], key) == Keyed(xs[..i], key)[key(xs[i]) := xs[i]]
  {
    assert xs[..i + 1][..i] == xs[..i];
  }

  /** Inserting a row into the newer of two tables inserts it into both. */
  lemma PlusUpdate<V>(older: map<nat, V>, newer: map<nat, V>, k: nat, v: V)
    ensures (older + newer)[k := v] == older + newer[k := v]
  {
  }
}
