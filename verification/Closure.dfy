/** What `WITH RECURSIVE` computes: the least set that holds the seeds and is closed under a finite relation. */
module Closure {

  ghost predicate Closed<T(!new)>(edges: set<(T, T)>, s: set<T>) {
    forall e | e in edges && e.0 in s :: e.1 in s
  }

  /** One round of the recursive query. */
  function Expand<T(==)>(edges: set<(T, T)>, s: set<T>): (r: set<T>)
    ensures s <= r
    ensures forall e | e in edges && e.0 in s :: e.1 in r
  {
    s + set e | e in edges && e.0 in s :: e.1
  }

  function Targets<T(==)>(edges: set<(T, T)>): (r: set<T>)
    ensures forall e | e in edges :: e.1 in r
  {
    set e | e in edges :: e.1
  }

  function Reach<T(==,!new)>(edges: set<(T, T)>, seeds: set<T>): (r: set<T>)
    decreases Targets(edges) - seeds
    ensures seeds <= r && Closed(edges, r)
  {
    var next := Expand(edges, seeds);
    if next == seeds then seeds else Reach(edges, next)
  }

  /** No smaller set would do. */
  lemma {:induction false} ReachLeast<T(!new)>(edges: set<(T, T)>, seeds: set<T>, s: set<T>)
    requires seeds <= s && Closed(edges, s)
    ensures Reach(edges, seeds) <= s
    decreases Targets(edges) - seeds
  {
    var next := Expand(edges, seeds);
    if next != seeds {
      ReachLeast(edges, next, s);
    }
  }

  /** Two recursive queries over one relation reach what one query from both seed sets reaches. */
  lemma ReachUnion<T(!new)>(edges: set<(T, T)>, a: set<T>, b: set<T>)
    ensures Reach(edges, a) + Reach(edges, b) == Reach(edges, a + b)
  {
    var both := Reach(edges, a) + Reach(edges, b);
    ReachLeast(edges, a, Reach(edges, a + b));
    ReachLeast(edges, b, Reach(edges, a + b));
    ReachLeast(edges, a + b, both);
  }

  /** Seeds without an edge out of them reach nothing but themselves. */
  lemma ReachIdle<T(!new)>(edges: set<(T, T)>, seeds: set<T>, idle: set<T>)
    requires forall e | e in edges :: e.0 !in idle
    ensures Reach(edges, seeds + idle) == Reach(edges, seeds) + idle
  {
    ReachLeast(edges, seeds, Reach(edges, seeds + idle));
    ReachLeast(edges, seeds + idle, Reach(edges, seeds) + idle);
  }
}
