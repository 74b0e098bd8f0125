/** Bounded breadth-first reads of the assertion graph: the store's query by hops and the in-memory reference. */
module KnowledgeTraverse {
  import opened Prelude
  import opened KnowledgeModel
  import opened KnowledgeTables
  import opened KnowledgeGraph

  datatype Perspective = Perspective(validAt: Time, knownAt: Time)

  datatype Traversal = Traversal(seeds: seq<Id>, perspective: Perspective, depth: nat, limit: nat)

  datatype Subgraph = Subgraph(entities: seq<Entity>, assertions: seq<Assertion>, truncated: bool)

  datatype Visited = Visited(ids: seq<Id>, edges: seq<Assertion>, truncated: bool)

  /** True and known at the perspective. */
  predicate Visible(a: Assertion, p: Perspective) {
    && a.knownFrom <= p.knownAt && (a.knownTo.Some? ==> p.knownAt < a.knownTo.value)
    && (a.validFrom.Some? ==> a.validFrom.value <= p.validAt)
    && (a.validTo.Some? ==> p.validAt < a.validTo.value)
  }

  function EndpointList(a: Assertion): (r: seq<Id>)
    ensures forall v :: v in r <==> v in Endpoints(a)
  {
    match a.target
    case EntityObject(e) => [a.subject, e]
    case ValueObject(_) => [a.subject]
  }

  predicate Touches(a: Assertion, vertices: seq<Id>) {
    exists v | v in Endpoints(a) :: v in vertices
  }

  predicate Increasing(s: seq<nat>) {
    forall i, j | 0 <= i < j < |s| :: s[i] < s[j]
  }

  lemma AscendingNext(s: set<nat>, least: nat, rest: seq<nat>)
    requires IsLeast(least, s) && Increasing(rest) && |rest| == |s - {least}|
    requires forall x :: x in rest <==> x in s - {least}
    ensures Increasing([least] + rest) && |[least] + rest| == |s|
    ensures forall x :: x in [least] + rest <==> x in s
  {
    assert forall i | 0 <= i < |rest| :: rest[i] in rest;
  }

  /** ORDER BY id. */
  function Ascending(s: set<nat>): (r: seq<nat>)
    ensures forall x :: x in r <==> x in s
    ensures Increasing(r) && |r| == |s|
  {
    if s == {} then []
    else
      var least := Least(s);
      var rest := Ascending(s - {least});
      AscendingNext(s, least, rest);
      [least] + rest
  }

  function IdsOf(edges: seq<Assertion>): (r: set<Id>)
    ensures forall a | a in edges :: a.id in r
  {
    set a | a in edges :: a.id
  }

  // ---- the store's query ----

  /** The visible rows that touch the frontier and were not selected before. */
  function AdjacentIds(g: Graph, p: Perspective, frontier: seq<Id>, edges: seq<Assertion>): set<Id> {
    set id | id in g.assertions && Visible(g.assertions[id], p) && Touches(g.assertions[id], frontier) && id !in IdsOf(edges)
  }

  function Rows(g: Graph, ids: seq<Id>): (r: seq<Assertion>)
    requires forall id | id in ids :: id in g.assertions
    ensures |r| == |ids| && forall i | 0 <= i < |r| :: r[i] == g.assertions[ids[i]]
  {
    seq(|ids|, i requires 0 <= i < |ids| => g.assertions[ids[i]])
  }

  function Discovered(selected: seq<Assertion>, seen: seq<Id>): (r: seq<Id>)
    ensures forall v :: v in r <==> v !in seen && exists a | a in selected :: v in Endpoints(a)
    ensures NoDuplicates(r)
  {
    var all := Distinct(AllEndpoints(selected));
    FilterDistinct((v: Id) => v !in seen, all);
    Filter((v: Id) => v !in seen, all)
  }

  function AllEndpoints(selected: seq<Assertion>): (r: seq<Id>)
    ensures forall v :: v in r <==> exists a | a in selected :: v in Endpoints(a)
  {
    if selected == [] then [] else EndpointList(selected[0]) + AllEndpoints(selected[1..])
  }

  lemma {:induction false} FilterDistinct<T(!new)>(keep: T -> bool, xs: seq<T>)
    requires NoDuplicates(xs)
    ensures NoDuplicates(Filter(keep, xs))
  {
    if xs != [] {
      var rest := xs[1..];
      FilterDistinct(keep, rest);
      forall i | 0 <= i < |rest| ensures rest[i] != xs[0] {
        assert rest[i] == xs[i + 1];
      }
    }
  }

  /** The next rows by id, at most `count` of them. */
  function Found(g: Graph, p: Perspective, frontier: seq<Id>, edges: seq<Assertion>, count: nat): (r: seq<Assertion>)
    ensures |r| == Min(count, |AdjacentIds(g, p, frontier, edges)|)
  {
    var ids := Take(Ascending(AdjacentIds(g, p, frontier, edges)), count);
    assert forall id | id in ids :: id in Ascending(AdjacentIds(g, p, frontier, edges));
    Rows(g, ids)
  }

  /** One hop: the rows selected, the new vertices kept, and whether the limit cut either. */
  datatype Hop = Hop(selected: seq<Assertion>, kept: seq<Id>, cut: bool)

  function NextHop(g: Graph, q: Traversal, frontier: seq<Id>, seen: seq<Id>, edges: seq<Assertion>): Hop {
    var available := Max(0, q.limit - |edges|);
    var found := Found(g, q.perspective, frontier, edges, available + 1);
    var selected := Take(found, available);
    var discovered := Discovered(selected, seen);
    var kept := Take(discovered, q.limit - |seen|);
    Hop(selected, kept, |found| > available || |discovered| > |kept|)
  }

  function Visit(
      g: Graph, q: Traversal, frontier: seq<Id>, seen: seq<Id>, edges: seq<Assertion>, depth: nat, truncated: bool): Visited
    decreases depth
  {
    if depth == 0 || frontier == [] then Visited(seen, edges, truncated)
    else
      var hop := NextHop(g, q, frontier, seen, edges);
      Visit(g, q, hop.kept, seen + hop.kept, edges + hop.selected, depth - 1, truncated || hop.cut)
  }

  function StartOf(q: Traversal): (r: seq<Id>)
    ensures NoDuplicates(r) && |r| <= q.limit
    ensures forall v | v in r :: v in q.seeds
    ensures |r| <= |q.seeds| && (|r| == |q.seeds| ==> r == q.seeds)
  {
    var all := Distinct(q.seeds);
    assert forall v | v in Take(all, q.limit) :: v in all;
    Take(all, q.limit)
  }

  function StoredIds(g: Graph, ids: seq<Id>): set<Id> {
    set id | id in ids && id in g.entities
  }

  function StoredEntities(g: Graph, ids: seq<Id>): (r: seq<Entity>)
    ensures |r| == |StoredIds(g, ids)|
  {
    EntitiesAt(g, Ascending(StoredIds(g, ids)))
  }

  function EntitiesAt(g: Graph, ids: seq<Id>): (r: seq<Entity>)
    requires forall id | id in ids :: id in g.entities
    ensures |r| == |ids| && forall i | 0 <= i < |r| :: r[i] == g.entities[ids[i]]
  {
    seq(|ids|, i requires 0 <= i < |ids| => g.entities[ids[i]])
  }

  function EntityIds(entities: seq<Entity>): (r: set<Id>) {
    set e | e in entities :: e.id
  }

  /** The stored entities among the vertices, and the selected assertions that have both ends among them. */
  function Answer(g: Graph, result: Visited): Subgraph {
    var entities := StoredEntities(g, result.ids);
    var assertions := Filter((a: Assertion) => Endpoints(a) <= EntityIds(entities), result.edges);
    Subgraph(entities, assertions, result.truncated || |assertions| != |result.edges|)
  }

  function Traverse(g: Graph, q: Traversal): Subgraph {
    var seeds := StartOf(q);
    Answer(g, Visit(g, q, seeds, seeds, [], Min(q.depth, 3), |q.seeds| > |seeds|))
  }

  // ---- distance ----

  /** The visible assertions with an endpoint less than `k` hops from the seeds. */
  function Covered(g: Graph, p: Perspective, seeds: set<Id>, k: nat): (r: set<Id>)
    decreases k, 1
    ensures forall id | id in r :: id in g.assertions && Visible(g.assertions[id], p)
  {
    if k == 0 then {}
    else
      var near := Within(g, p, seeds, k - 1);
      set id | id in g.assertions && Visible(g.assertions[id], p) && Endpoints(g.assertions[id]) * near != {}
  }

  /** The vertices at most `k` hops from the seeds along visible assertions. */
  function Within(g: Graph, p: Perspective, seeds: set<Id>, k: nat): set<Id>
    decreases k, 2
  {
    if k == 0 then seeds
    else Within(g, p, seeds, k - 1) + set id, v | id in Covered(g, p, seeds, k) && v in Endpoints(g.assertions[id]) :: v
  }

  lemma WithinGrows(g: Graph, p: Perspective, seeds: set<Id>, k: nat)
    ensures Covered(g, p, seeds, k) <= Covered(g, p, seeds, k + 1)
    ensures forall id | id in Covered(g, p, seeds, k) :: Endpoints(g.assertions[id]) <= Within(g, p, seeds, k)
  {
  }

  lemma {:induction false} CoveredMonotone(g: Graph, p: Perspective, seeds: set<Id>, k: nat, n: nat)
    requires k <= n
    ensures Covered(g, p, seeds, k) <= Covered(g, p, seeds, n) && Within(g, p, seeds, k) <= Within(g, p, seeds, n)
    decreases n
  {
    if k < n {
      CoveredMonotone(g, p, seeds, k, n - 1);
      WithinGrows(g, p, seeds, n - 1);
    }
  }

  /** Once a hop finds nothing new, no later one does. */
  lemma {:induction false} CoveredStable(g: Graph, p: Perspective, seeds: set<Id>, k: nat, n: nat)
    requires k <= n && Covered(g, p, seeds, k + 1) == Covered(g, p, seeds, k)
    ensures Covered(g, p, seeds, n) == Covered(g, p, seeds, k) && Within(g, p, seeds, n) == Within(g, p, seeds, k)
    ensures Covered(g, p, seeds, n + 1) == Covered(g, p, seeds, n)
    decreases n
  {
    hide Covered, Within;
    if k < n {
      CoveredStable(g, p, seeds, k, n - 1);
      StableNext(g, p, seeds, n - 1);
    }
  }

  lemma StableNext(g: Graph, p: Perspective, seeds: set<Id>, k: nat)
    requires Covered(g, p, seeds, k + 1) == Covered(g, p, seeds, k)
    ensures Within(g, p, seeds, k + 1) == Within(g, p, seeds, k)
    ensures Covered(g, p, seeds, k + 2) == Covered(g, p, seeds, k + 1)
  {
    WithinGrows(g, p, seeds, k);
    assert Within(g, p, seeds, k + 1) == Within(g, p, seeds, k);
  }

  // ---- what one hop finds ----

  /** Stored, visible and listed once. */
  predicate Selected(g: Graph, p: Perspective, edges: seq<Assertion>) {
    && (forall a | a in edges :: a.id in g.assertions && g.assertions[a.id] == a && Visible(a, p))
    && DistinctIds(edges)
  }

  predicate DistinctIds(edges: seq<Assertion>) {
    forall i, j | 0 <= i < j < |edges| :: edges[i].id != edges[j].id
  }

  lemma FoundAt(g: Graph, p: Perspective, frontier: seq<Id>, edges: seq<Assertion>, count: nat, i: nat)
    requires KeysSound(g) && i < |Found(g, p, frontier, edges, count)|
    ensures var ids := AdjacentIds(g, p, frontier, edges);
      && Ascending(ids)[i] in ids
      && Found(g, p, frontier, edges, count)[i] == g.assertions[Ascending(ids)[i]]
      && Found(g, p, frontier, edges, count)[i].id == Ascending(ids)[i]
  {
    hide Ascending;
    assert Ascending(AdjacentIds(g, p, frontier, edges))[i] in Ascending(AdjacentIds(g, p, frontier, edges));
  }

  lemma FoundAre(g: Graph, p: Perspective, frontier: seq<Id>, edges: seq<Assertion>, count: nat)
    requires KeysSound(g)
    ensures var found := Found(g, p, frontier, edges, count);
      && Selected(g, p, found)
      && (forall a | a in found :: a.id !in IdsOf(edges) && Touches(a, frontier))
      && (|found| < count ==> IdsOf(found) == AdjacentIds(g, p, frontier, edges))
  {
    hide Found, Ascending;
    var ids := AdjacentIds(g, p, frontier, edges);
    var sorted := Ascending(ids);
    var found := Found(g, p, frontier, edges, count);
    forall i | 0 <= i < |found| { FoundAt(g, p, frontier, edges, count, i); }
    if |found| < count {
      forall id | id in ids ensures id in IdsOf(found) {
        assert id in sorted;
        var i :| 0 <= i < |sorted| && sorted[i] == id;
        assert found[i] in found;
      }
    }
  }

  lemma SelectedExtends(g: Graph, p: Perspective, edges: seq<Assertion>, more: seq<Assertion>)
    requires Selected(g, p, edges) && Selected(g, p, more)
    requires forall a | a in more :: a.id !in IdsOf(edges)
    ensures Selected(g, p, edges + more) && IdsOf(edges + more) == IdsOf(edges) + IdsOf(more)
  {
    var all := edges + more;
    forall i, j | 0 <= i < j < |all| ensures all[i].id != all[j].id {
      if i < |edges| <= j {
        assert all[j] in more && all[i] in edges;
      }
    }
  }

  lemma SelectedPrefix(g: Graph, p: Perspective, edges: seq<Assertion>, n: nat)
    requires Selected(g, p, edges)
    ensures Selected(g, p, Take(edges, n))
  {
    assert forall a | a in Take(edges, n) :: a in edges;
  }

  /** What every hop keeps: bounded, listed once, and reached within `k` hops. */
  predicate Bounded(g: Graph, q: Traversal, s: set<Id>, k: nat, seen: seq<Id>, edges: seq<Assertion>) {
    && |seen| <= q.limit && NoDuplicates(seen)
    && |edges| <= q.limit && Selected(g, q.perspective, edges)
    && (forall v | v in seen :: v in Within(g, q.perspective, s, k))
    && IdsOf(edges) <= Covered(g, q.perspective, s, k)
  }

  /** The rows of a hop are new ones that touch the frontier, at most as many as the limit leaves. */
  lemma HopRows(g: Graph, q: Traversal, frontier: seq<Id>, seen: seq<Id>, edges: seq<Assertion>)
    requires KeysSound(g) && Selected(g, q.perspective, edges) && |edges| <= q.limit
    ensures var selected := NextHop(g, q, frontier, seen, edges).selected;
      && |edges + selected| <= q.limit
      && Selected(g, q.perspective, edges + selected)
      && IdsOf(edges + selected) == IdsOf(edges) + IdsOf(selected)
      && forall a | a in selected :: a in edges + selected && Touches(a, frontier)
  {
    hide Found, Discovered, Touches, Selected, KeysSound, IdsOf;
    var found := Found(g, q.perspective, frontier, edges, q.limit - |edges| + 1);
    var selected := Take(found, q.limit - |edges|);
    assert NextHop(g, q, frontier, seen, edges).selected == selected;
    FoundAre(g, q.perspective, frontier, edges, q.limit - |edges| + 1);
    SelectedPrefix(g, q.perspective, found, q.limit - |edges|);
    assert forall a | a in selected :: a in found;
    SelectedExtends(g, q.perspective, edges, selected);
  }

  /** The vertices of a hop are new endpoints of its rows, at most as many as the limit leaves. */
  lemma HopVertices(g: Graph, q: Traversal, frontier: seq<Id>, seen: seq<Id>, edges: seq<Assertion>)
    requires NoDuplicates(seen) && |seen| <= q.limit
    ensures var hop := NextHop(g, q, frontier, seen, edges);
      && |seen + hop.kept| <= q.limit
      && NoDuplicates(seen + hop.kept)
      && forall v | v in hop.kept :: exists a | a in hop.selected :: v in Endpoints(a)
  {
    var hop := NextHop(g, q, frontier, seen, edges);
    var discovered := Discovered(hop.selected, seen);
    forall v | v in hop.kept ensures v !in seen && exists a | a in hop.selected :: v in Endpoints(a) {
      assert v in discovered;
    }
    DistinctExtends(seen, discovered, |hop.kept|);
  }

  lemma DistinctExtends(xs: seq<Id>, ys: seq<Id>, n: nat)
    requires NoDuplicates(xs) && NoDuplicates(ys) && n <= |ys|
    requires forall y | y in ys :: y !in xs
    ensures NoDuplicates(xs + ys[..n])
  {
    forall i, j | 0 <= i < j < |xs + ys[..n]| ensures (xs + ys[..n])[i] != (xs + ys[..n])[j] {
      if j >= |xs| {
        assert ys[j - |xs|] in ys;
      }
    }
  }

  lemma HopBounded(g: Graph, q: Traversal, s: set<Id>, k: nat, frontier: seq<Id>, seen: seq<Id>, edges: seq<Assertion>)
    requires KeysSound(g) && Bounded(g, q, s, k, seen, edges)
    requires forall v | v in frontier :: v in seen
    ensures var hop := NextHop(g, q, frontier, seen, edges);
      Bounded(g, q, s, k + 1, seen + hop.kept, edges + hop.selected)
  {
    hide Within, Covered, NextHop, Touches, Visible, NoDuplicates;
    var hop := NextHop(g, q, frontier, seen, edges);
    HopRows(g, q, frontier, seen, edges);
    HopVertices(g, q, frontier, seen, edges);
    CoveredMonotone(g, q.perspective, s, k, k + 1);
    forall a | a in hop.selected ensures a.id in Covered(g, q.perspective, s, k + 1) {
      NearIsCovered(g, q.perspective, s, k, frontier, a);
    }
    WithinGrows(g, q.perspective, s, k + 1);
  }

  lemma NearIsCovered(g: Graph, p: Perspective, s: set<Id>, k: nat, frontier: seq<Id>, a: Assertion)
    requires forall v | v in frontier :: v in Within(g, p, s, k)
    requires a.id in g.assertions && g.assertions[a.id] == a && Visible(a, p) && Touches(a, frontier)
    ensures a.id in Covered(g, p, s, k + 1)
  {
    var v :| v in Endpoints(a) && v in frontier;
    assert v in Endpoints(a) * Within(g, p, s, k);
  }

  lemma {:induction false} VisitBounded(
      g: Graph, q: Traversal, s: set<Id>, k: nat, frontier: seq<Id>, seen: seq<Id>, edges: seq<Assertion>, depth: nat,
      truncated: bool)
    requires KeysSound(g) && Bounded(g, q, s, k, seen, edges)
    requires forall v | v in frontier :: v in seen
    ensures var r := Visit(g, q, frontier, seen, edges, depth, truncated);
      Bounded(g, q, s, k + depth, r.ids, r.edges) && seen <= r.ids && edges <= r.edges && (truncated ==> r.truncated)
    decreases depth
  {
    hide Bounded, NextHop;
    if depth == 0 || frontier == [] {
      BoundedLater(g, q, s, k, k + depth, seen, edges);
    } else {
      var hop := NextHop(g, q, frontier, seen, edges);
      HopBounded(g, q, s, k, frontier, seen, edges);
      VisitBounded(g, q, s, k + 1, hop.kept, seen + hop.kept, edges + hop.selected, depth - 1, truncated || hop.cut);
    }
  }

  lemma BoundedLater(g: Graph, q: Traversal, s: set<Id>, k: nat, n: nat, seen: seq<Id>, edges: seq<Assertion>)
    requires Bounded(g, q, s, k, seen, edges) && k <= n
    ensures Bounded(g, q, s, n, seen, edges)
  {
    CoveredMonotone(g, q.perspective, s, k, n);
  }

  // ---- results within the limits ----

  lemma StoredEntitiesAre(g: Graph, ids: seq<Id>)
    requires KeysSound(g)
    ensures EntityIds(StoredEntities(g, ids)) == StoredIds(g, ids)
    ensures forall e | e in StoredEntities(g, ids) :: e.id in g.entities && g.entities[e.id] == e
  {
    hide Ascending, StoredIds;
    var sorted := Ascending(StoredIds(g, ids));
    var entities := StoredEntities(g, ids);
    StoredIdsAre(g, ids);
    forall i | 0 <= i < |entities| ensures sorted[i] in StoredIds(g, ids) && entities[i].id == sorted[i] && entities[i] == g.entities[sorted[i]] {
      assert sorted[i] in sorted;
    }
    forall id | id in StoredIds(g, ids) ensures id in EntityIds(entities) {
      assert id in sorted;
      var i :| 0 <= i < |sorted| && sorted[i] == id;
      assert entities[i] in entities;
    }
  }

  lemma StoredIdsAre(g: Graph, ids: seq<Id>)
    ensures forall id :: id in StoredIds(g, ids) <==> id in ids && id in g.entities
  {
  }

  lemma {:induction false} SetFits(s: set<Id>, xs: seq<Id>)
    requires forall x | x in s :: x in xs
    ensures |s| <= |xs|
  {
    if xs != [] {
      var rest := xs[1..];
      forall x | x in s - {xs[0]} ensures x in rest {
        var i :| 0 <= i < |xs| && xs[i] == x;
        assert rest[i - 1] == x;
      }
      SetFits(s - {xs[0]}, rest);
    } else {
      assert s == {};
    }
  }

  ghost predicate SoundAnswer(g: Graph, q: Traversal, s: set<Id>, r: Subgraph) {
    var depth := Min(q.depth, 3);
    && |r.entities| <= q.limit && |r.assertions| <= q.limit
    && Selected(g, q.perspective, r.assertions)
    && (forall e | e in r.entities :: e.id in g.entities && g.entities[e.id] == e)
    && EntityIds(r.entities) <= Within(g, q.perspective, s, depth)
    && IdsOf(r.assertions) <= Covered(g, q.perspective, s, depth)
    && forall a | a in r.assertions :: Endpoints(a) <= EntityIds(r.entities)
  }

  lemma {:induction false} FilterSelected(g: Graph, p: Perspective, keep: Assertion -> bool, edges: seq<Assertion>)
    requires Selected(g, p, edges)
    ensures Selected(g, p, Filter(keep, edges))
  {
    if edges != [] {
      var rest := edges[1..];
      assert forall i | 0 <= i < |rest| :: rest[i] == edges[i + 1];
      FilterSelected(g, p, keep, rest);
    }
  }

  lemma StartBounded(g: Graph, q: Traversal)
    requires KeysSound(g)
    ensures var seeds := StartOf(q); Bounded(g, q, (set v | v in seeds), 0, seeds, [])
  {
  }

  lemma AnswerSound(g: Graph, q: Traversal, s: set<Id>, result: Visited)
    requires KeysSound(g) && Bounded(g, q, s, Min(q.depth, 3), result.ids, result.edges)
    ensures SoundAnswer(g, q, s, Answer(g, result))
  {
    hide Within, Covered, StoredEntities, Endpoints, Visible;
    StoredEntitiesAre(g, result.ids);
    StoredWithin(g, result.ids);
    var ids := EntityIds(StoredEntities(g, result.ids));
    FilterSelected(g, q.perspective, (a: Assertion) => Endpoints(a) <= ids, result.edges);
  }

  /** Whatever the answer, it is within both limits, visible at the perspective, within reach, and closed: both ends are there. */
  lemma TraverseSound(g: Graph, q: Traversal)
    requires KeysSound(g)
    ensures SoundAnswer(g, q, (set v | v in StartOf(q)), Traverse(g, q))
  {
    hide Bounded, Answer, SoundAnswer, StartOf, Visit;
    var seeds := StartOf(q);
    var s := set v | v in seeds;
    StartBounded(g, q);
    VisitBounded(g, q, s, 0, seeds, seeds, [], Min(q.depth, 3), |q.seeds| > |seeds|);
    AnswerSound(g, q, s, Visit(g, q, seeds, seeds, [], Min(q.depth, 3), |q.seeds| > |seeds|));
  }

  lemma StoredWithin(g: Graph, ids: seq<Id>)
    ensures |StoredEntities(g, ids)| <= |ids| && forall id | id in StoredIds(g, ids) :: id in ids
  {
    SetFits(StoredIds(g, ids), ids);
  }

  // ---- what truncated means ----

  /** Where the hops are after `k` of them, nothing cut so far: all within reach is seen, and the frontier is the way on. */
  predicate Exact(g: Graph, q: Traversal, s: set<Id>, k: nat, frontier: seq<Id>, seen: seq<Id>, edges: seq<Assertion>) {
    && Within(g, q.perspective, s, k) == (set v | v in seen)
    && Covered(g, q.perspective, s, k) == IdsOf(edges)
    && (forall v | v in frontier :: v in seen)
    && forall id | id in Covered(g, q.perspective, s, k + 1) :: id in IdsOf(edges) || Touches(g.assertions[id], frontier)
  }

  /** Something within reach is not in the answer: an assertion was not selected, or one of its ends was not kept. */
  predicate Missed(g: Graph, p: Perspective, s: set<Id>, k: nat, r: Visited) {
    exists id | id in Covered(g, p, s, k) :: id !in IdsOf(r.edges) || exists v | v in Endpoints(g.assertions[id]) :: v !in r.ids
  }

  lemma HopFull(g: Graph, q: Traversal, frontier: seq<Id>, seen: seq<Id>, edges: seq<Assertion>)
    ensures var hop := NextHop(g, q, frontier, seen, edges);
      (|edges| >= q.limit ==> hop.selected == []) && (|seen| >= q.limit ==> hop.kept == [])
  {
    hide Found, Discovered;
  }

  /** Once a limit is reached, that list does not grow. */
  lemma {:induction false} VisitFull(
      g: Graph, q: Traversal, frontier: seq<Id>, seen: seq<Id>, edges: seq<Assertion>, depth: nat, truncated: bool)
    ensures |edges| >= q.limit ==> Visit(g, q, frontier, seen, edges, depth, truncated).edges == edges
    ensures |seen| >= q.limit ==> Visit(g, q, frontier, seen, edges, depth, truncated).ids == seen
    decreases depth
  {
    hide NextHop;
    if depth != 0 && frontier != [] {
      var hop := NextHop(g, q, frontier, seen, edges);
      HopFull(g, q, frontier, seen, edges);
      assert edges + [] == edges && seen + [] == seen;
      VisitFull(g, q, hop.kept, seen + hop.kept, edges + hop.selected, depth - 1, truncated || hop.cut);
    }
  }

  lemma UncutRows(g: Graph, q: Traversal, frontier: seq<Id>, seen: seq<Id>, edges: seq<Assertion>)
    requires KeysSound(g) && |edges| <= q.limit && !NextHop(g, q, frontier, seen, edges).cut
    ensures IdsOf(NextHop(g, q, frontier, seen, edges).selected) == AdjacentIds(g, q.perspective, frontier, edges)
  {
    hide Found, Discovered, AdjacentIds, Selected;
    var found := Found(g, q.perspective, frontier, edges, q.limit - |edges| + 1);
    assert NextHop(g, q, frontier, seen, edges).selected == found;
    FoundAre(g, q.perspective, frontier, edges, q.limit - |edges| + 1);
  }

  /** A hop that cuts nothing selects exactly what is one hop further. */
  lemma HopExactRows(g: Graph, q: Traversal, s: set<Id>, k: nat, frontier: seq<Id>, seen: seq<Id>, edges: seq<Assertion>)
    requires KeysSound(g) && Bounded(g, q, s, k, seen, edges) && Exact(g, q, s, k, frontier, seen, edges)
    requires !NextHop(g, q, frontier, seen, edges).cut
    ensures Covered(g, q.perspective, s, k + 1) == IdsOf(edges + NextHop(g, q, frontier, seen, edges).selected)
  {
    hide Within, Covered, NextHop, Touches, Visible, Selected;
    var hop := NextHop(g, q, frontier, seen, edges);
    UncutRows(g, q, frontier, seen, edges);
    HopBounded(g, q, s, k, frontier, seen, edges);
    HopRows(g, q, frontier, seen, edges);
    forall id | id in Covered(g, q.perspective, s, k + 1) && id !in IdsOf(edges) ensures id in IdsOf(hop.selected) {
      assert id in AdjacentIds(g, q.perspective, frontier, edges);
    }
  }

  lemma HopExactVertices(g: Graph, q: Traversal, s: set<Id>, k: nat, frontier: seq<Id>, seen: seq<Id>, edges: seq<Assertion>)
    requires KeysSound(g) && Bounded(g, q, s, k, seen, edges) && Exact(g, q, s, k, frontier, seen, edges)
    requires !NextHop(g, q, frontier, seen, edges).cut
    ensures Within(g, q.perspective, s, k + 1) == set v | v in seen + NextHop(g, q, frontier, seen, edges).kept
  {
    hide Found, Touches, Visible;
    var hop := NextHop(g, q, frontier, seen, edges);
    assert hop.kept == Discovered(hop.selected, seen);
    HopExactRows(g, q, s, k, frontier, seen, edges);
    HopBounded(g, q, s, k, frontier, seen, edges);
    WithinGrows(g, q.perspective, s, k);
    forall v | v in Within(g, q.perspective, s, k + 1) ensures v in seen + hop.kept {
      if v !in seen {
        var id :| id in Covered(g, q.perspective, s, k + 1) && v in Endpoints(g.assertions[id]);
        var a :| a in edges + hop.selected && a.id == id;
        assert a in hop.selected;
      }
    }
  }

  lemma HopExactFrontier(
      g: Graph, p: Perspective, s: set<Id>, k: nat, seen: seq<Id>, kept: seq<Id>, id: Id)
    requires Within(g, p, s, k) == set v | v in seen
    requires Within(g, p, s, k + 1) == set v | v in seen + kept
    requires id in Covered(g, p, s, k + 2)
    ensures id in Covered(g, p, s, k + 1) || Touches(g.assertions[id], kept)
  {
    var v :| v in Endpoints(g.assertions[id]) && v in Within(g, p, s, k + 1);
    if v in seen {
      assert v in Endpoints(g.assertions[id]) * Within(g, p, s, k);
    }
  }

  /** A hop that cuts nothing leaves the hops exact. */
  lemma HopExact(g: Graph, q: Traversal, s: set<Id>, k: nat, frontier: seq<Id>, seen: seq<Id>, edges: seq<Assertion>)
    requires KeysSound(g) && Bounded(g, q, s, k, seen, edges) && Exact(g, q, s, k, frontier, seen, edges)
    requires !NextHop(g, q, frontier, seen, edges).cut
    ensures var hop := NextHop(g, q, frontier, seen, edges);
      Exact(g, q, s, k + 1, hop.kept, seen + hop.kept, edges + hop.selected)
  {
    hide Within, Covered, NextHop, Touches;
    var hop := NextHop(g, q, frontier, seen, edges);
    HopExactRows(g, q, s, k, frontier, seen, edges);
    HopExactVertices(g, q, s, k, frontier, seen, edges);
    forall id | id in Covered(g, q.perspective, s, k + 2)
      ensures id in IdsOf(edges + hop.selected) || Touches(g.assertions[id], hop.kept)
    {
      HopExactFrontier(g, q.perspective, s, k, seen, hop.kept, id);
    }
  }

  /** A hop cut short of rows reaches the limit and leaves a row within reach out. */
  lemma RowCut(g: Graph, q: Traversal, s: set<Id>, k: nat, frontier: seq<Id>, seen: seq<Id>, edges: seq<Assertion>)
    returns (a: Assertion)
    requires KeysSound(g) && Bounded(g, q, s, k, seen, edges) && (forall v | v in frontier :: v in seen)
    requires |Found(g, q.perspective, frontier, edges, q.limit - |edges| + 1)| > q.limit - |edges|
    ensures var hop := NextHop(g, q, frontier, seen, edges);
      |edges + hop.selected| == q.limit && a.id in Covered(g, q.perspective, s, k + 1) && a.id !in IdsOf(edges + hop.selected)
  {
    hide Within, Covered, Found, Discovered, Touches, Visible;
    var found := Found(g, q.perspective, frontier, edges, q.limit - |edges| + 1);
    var hop := NextHop(g, q, frontier, seen, edges);
    FoundAre(g, q.perspective, frontier, edges, q.limit - |edges| + 1);
    a := found[q.limit - |edges|];
    assert a in found;
    forall b | b in edges + hop.selected ensures b.id != a.id {
      if b in hop.selected {
        var i :| 0 <= i < |hop.selected| && hop.selected[i] == b;
        assert found[i] == b;
      }
    }
    NearIsCovered(g, q.perspective, s, k, frontier, a);
  }

  /** A hop cut short of vertices reaches the limit and leaves an end of a selected row out. */
  lemma VertexCut(g: Graph, q: Traversal, frontier: seq<Id>, seen: seq<Id>, edges: seq<Assertion>)
    returns (a: Assertion, v: Id)
    requires |seen| <= q.limit
    requires var hop := NextHop(g, q, frontier, seen, edges); |Discovered(hop.selected, seen)| > |hop.kept|
    ensures var hop := NextHop(g, q, frontier, seen, edges);
      |seen + hop.kept| == q.limit && a in hop.selected && v in Endpoints(a) && v !in seen + hop.kept
  {
    hide Found, Discovered;
    var hop := NextHop(g, q, frontier, seen, edges);
    var discovered := Discovered(hop.selected, seen);
    assert hop.kept == Take(discovered, q.limit - |seen|);
    v := discovered[|hop.kept|];
    assert v in discovered;
    a :| a in hop.selected && v in Endpoints(a);
  }

  /** A hop that cuts leaves something within reach out for good. */
  lemma HopCut(
      g: Graph, q: Traversal, s: set<Id>, k: nat, frontier: seq<Id>, seen: seq<Id>, edges: seq<Assertion>, depth: nat,
      truncated: bool)
    requires KeysSound(g) && Bounded(g, q, s, k, seen, edges) && (forall v | v in frontier :: v in seen)
    requires NextHop(g, q, frontier, seen, edges).cut
    ensures var hop := NextHop(g, q, frontier, seen, edges);
      Missed(g, q.perspective, s, k + 1, Visit(g, q, hop.kept, seen + hop.kept, edges + hop.selected, depth, truncated))
  {
    hide Within, Covered, Found, Discovered, Touches, Visible, Visit;
    var hop := NextHop(g, q, frontier, seen, edges);
    VisitFull(g, q, hop.kept, seen + hop.kept, edges + hop.selected, depth, truncated);
    if |Found(g, q.perspective, frontier, edges, q.limit - |edges| + 1)| > q.limit - |edges| {
      var a := RowCut(g, q, s, k, frontier, seen, edges);
    } else {
      var a, v := VertexCut(g, q, frontier, seen, edges);
      HopBounded(g, q, s, k, frontier, seen, edges);
      SelectedStored(g, q, s, k + 1, seen + hop.kept, edges + hop.selected, a);
    }
  }

  lemma SelectedStored(g: Graph, q: Traversal, s: set<Id>, k: nat, seen: seq<Id>, edges: seq<Assertion>, a: Assertion)
    requires Bounded(g, q, s, k, seen, edges) && a in edges
    ensures a.id in Covered(g, q.perspective, s, k) && g.assertions[a.id] == a
  {
    assert a.id in IdsOf(edges);
  }

  /** From exact hops on: an uncut result is all within reach, a cut one misses something for good. */
  lemma {:induction false} VisitExact(
      g: Graph, q: Traversal, s: set<Id>, k: nat, frontier: seq<Id>, seen: seq<Id>, edges: seq<Assertion>, depth: nat)
    requires KeysSound(g) && Bounded(g, q, s, k, seen, edges) && Exact(g, q, s, k, frontier, seen, edges)
    ensures var r := Visit(g, q, frontier, seen, edges, depth, false);
      if r.truncated then Missed(g, q.perspective, s, k + depth, r)
      else Within(g, q.perspective, s, k + depth) == (set v | v in r.ids) && Covered(g, q.perspective, s, k + depth) == IdsOf(r.edges)
    decreases depth
  {
    hide NextHop, Bounded, Within, Covered, Touches, Missed;
    if depth != 0 && frontier != [] {
      var hop := NextHop(g, q, frontier, seen, edges);
      if hop.cut {
        HopCut(g, q, s, k, frontier, seen, edges, depth - 1, true);
        MissedLater(g, q.perspective, s, k + 1, k + depth, Visit(g, q, frontier, seen, edges, depth, false));
        VisitFlag(g, q, hop.kept, seen + hop.kept, edges + hop.selected, depth - 1);
      } else {
        HopExact(g, q, s, k, frontier, seen, edges);
        HopBounded(g, q, s, k, frontier, seen, edges);
        VisitExact(g, q, s, k + 1, hop.kept, seen + hop.kept, edges + hop.selected, depth - 1);
      }
    } else if depth != 0 {
      NoWayOn(g, q, s, k, seen, edges);
      CoveredStable(g, q.perspective, s, k, k + depth);
    }
  }

  lemma NoWayOn(g: Graph, q: Traversal, s: set<Id>, k: nat, seen: seq<Id>, edges: seq<Assertion>)
    requires Exact(g, q, s, k, [], seen, edges)
    ensures Covered(g, q.perspective, s, k + 1) == Covered(g, q.perspective, s, k)
  {
    hide Within, Covered;
    CoveredMonotone(g, q.perspective, s, k, k + 1);
  }

  lemma MissedLater(g: Graph, p: Perspective, s: set<Id>, k: nat, n: nat, r: Visited)
    requires Missed(g, p, s, k, r) && k <= n
    ensures Missed(g, p, s, n, r)
  {
    hide Within, Covered;
    CoveredMonotone(g, p, s, k, n);
  }

  /** The flag is only passed on. */
  lemma {:induction false} VisitFlag(
      g: Graph, q: Traversal, frontier: seq<Id>, seen: seq<Id>, edges: seq<Assertion>, depth: nat)
    ensures Visit(g, q, frontier, seen, edges, depth, true) == Visit(g, q, frontier, seen, edges, depth, false).(truncated := true)
    decreases depth
  {
    hide NextHop;
    if depth != 0 && frontier != [] {
      var hop := NextHop(g, q, frontier, seen, edges);
      VisitFlag(g, q, hop.kept, seen + hop.kept, edges + hop.selected, depth - 1);
    }
  }

  lemma StartExact(g: Graph, q: Traversal)
    ensures var seeds := StartOf(q); Exact(g, q, (set v | v in seeds), 0, seeds, seeds, [])
  {
    var seeds := StartOf(q);
    var s := set v | v in seeds;
    forall id | id in Covered(g, q.perspective, s, 1) ensures Touches(g.assertions[id], seeds) {
      var v :| v in Endpoints(g.assertions[id]) * Within(g, q.perspective, s, 0);
    }
  }

  /** An answer built from all within reach, or from a result that missed something. */
  lemma AnswerMeans(g: Graph, q: Traversal, s: set<Id>, result: Visited)
    requires KeysSound(g) && Bounded(g, q, s, Min(q.depth, 3), result.ids, result.edges)
    requires result.truncated ==> Missed(g, q.perspective, s, Min(q.depth, 3), result)
    requires !result.truncated ==> Covered(g, q.perspective, s, Min(q.depth, 3)) == IdsOf(result.edges)
    ensures Answer(g, result).truncated <==> IdsOf(Answer(g, result).assertions) != Covered(g, q.perspective, s, Min(q.depth, 3))
  {
    hide Within, Covered, StoredEntities, Endpoints, Visible, NoDuplicates;
    var depth := Min(q.depth, 3);
    var answer := Answer(g, result);
    StoredEntitiesAre(g, result.ids);
    if |answer.assertions| == |result.edges| {
      assert answer.assertions == result.edges;
      if result.truncated {
        var id :| id in Covered(g, q.perspective, s, depth) &&
          (id !in IdsOf(result.edges) || exists v | v in Endpoints(g.assertions[id]) :: v !in result.ids);
        assert id !in IdsOf(answer.assertions);
      }
    } else {
      var a := FilterDrops((a: Assertion) => Endpoints(a) <= EntityIds(answer.entities), result.edges);
      SelectedStored(g, q, s, depth, result.ids, result.edges, a);
      forall b | b in answer.assertions ensures b.id != a.id {
        SelectedStored(g, q, s, depth, result.ids, result.edges, b);
      }
    }
  }

  lemma {:induction false} FilterDrops<T(!new)>(keep: T -> bool, xs: seq<T>) returns (x: T)
    requires |Filter(keep, xs)| < |xs|
    ensures x in xs && !keep(x)
  {
    if keep(xs[0]) {
      x := FilterDrops(keep, xs[1..]);
    } else {
      x := xs[0];
    }
  }

  ghost function SeedSet(seeds: seq<Id>): set<Id> {
    set v | v in seeds
  }

  /** The hops from the first seeds on, whatever the flag they start with. */
  lemma HopsMean(g: Graph, q: Traversal) returns (result: Visited)
    requires KeysSound(g)
    ensures Traverse(g, q) == Answer(g, result.(truncated := result.truncated || |q.seeds| > |StartOf(q)|))
    ensures Bounded(g, q, SeedSet(StartOf(q)), Min(q.depth, 3), result.ids, result.edges)
    ensures result.truncated ==> Missed(g, q.perspective, SeedSet(StartOf(q)), Min(q.depth, 3), result)
    ensures !result.truncated ==>
      && Within(g, q.perspective, SeedSet(StartOf(q)), Min(q.depth, 3)) == SeedSet(result.ids)
      && Covered(g, q.perspective, SeedSet(StartOf(q)), Min(q.depth, 3)) == IdsOf(result.edges)
  {
    hide Bounded, Exact, Answer, StartOf, Visit, Missed, Within, Covered;
    var seeds := StartOf(q);
    var s := SeedSet(seeds);
    result := Visit(g, q, seeds, seeds, [], Min(q.depth, 3), false);
    StartBounded(g, q);
    StartExact(g, q);
    VisitBounded(g, q, s, 0, seeds, seeds, [], Min(q.depth, 3), false);
    VisitExact(g, q, s, 0, seeds, seeds, [], Min(q.depth, 3));
    VisitFlag(g, q, seeds, seeds, [], Min(q.depth, 3));
  }

  /**
   * `truncated` means exactly that: the seeds repeat or exceed the limit, or the answer lacks a visible assertion
   * with an end less than min(depth, 3) hops away.
   */
  lemma TruncatedMeans(g: Graph, q: Traversal)
    requires KeysSound(g)
    ensures var r := Traverse(g, q);
      r.truncated <==>
        || |q.seeds| > |StartOf(q)|
        || IdsOf(r.assertions) != Covered(g, q.perspective, SeedSet(StartOf(q)), Min(q.depth, 3))
  {
    hide Bounded, StartOf, Traverse, Missed, Within, Covered, StoredEntities;
    var result := HopsMean(g, q);
    AnswerMeans(g, q, SeedSet(StartOf(q)), result);
  }

  /** A complete answer: exactly the visible assertions and the entities within reach of the seeds. */
  lemma CompleteAnswer(g: Graph, q: Traversal)
    requires KeysSound(g) && !Traverse(g, q).truncated
    ensures var r := Traverse(g, q);
      && IdsOf(r.assertions) == Covered(g, q.perspective, SeedSet(q.seeds), Min(q.depth, 3))
      && EntityIds(r.entities) == Within(g, q.perspective, SeedSet(q.seeds), Min(q.depth, 3)) * g.entities.Keys
  {
    hide Bounded, StartOf, Traverse, Missed, Within, Covered, StoredEntities;
    var result := HopsMean(g, q);
    TruncatedMeans(g, q);
    StoredEntitiesAre(g, result.ids);
  }

  /** A complete answer to a query that names a seed twice reads truncated. */
  lemma RepeatedSeedTruncates(p: Perspective)
    ensures var q := Traversal([0, 0], p, 1, 10);
      var r := Traverse(EMPTY_GRAPH, q);
      r.truncated && IdsOf(r.assertions) == Covered(EMPTY_GRAPH, p, SeedSet(q.seeds), 1)
  {
    hide Traverse, StartOf;
    var q := Traversal([0, 0], p, 1, 10);
    assert q.seeds[0] == q.seeds[1];
    TruncatedMeans(EMPTY_GRAPH, q);
    TraverseSound(EMPTY_GRAPH, q);
    assert |StartOf(q)| == |q.seeds| ==> StartOf(q) == q.seeds;
  }

  // ---- the in-memory traversal ----

  /** Array.prototype.toSorted by id. */
  function SortById(edges: seq<Assertion>): seq<Assertion> {
    if edges == [] then [] else InsertById(edges[|edges| - 1], SortById(edges[..|edges| - 1]))
  }

  function InsertById(a: Assertion, sorted: seq<Assertion>): seq<Assertion> {
    if sorted == [] then [a]
    else
      var last := sorted[|sorted| - 1];
      if last.id <= a.id then sorted + [a] else InsertById(a, sorted[..|sorted| - 1]) + [last]
  }

  predicate Unselected(a: Assertion, edges: seq<Assertion>) {
    forall prior | prior in edges :: prior.id != a.id
  }

  function AdjacentReference(eligible: seq<Assertion>, frontier: seq<Id>, edges: seq<Assertion>): seq<Assertion> {
    SortById(Filter((a: Assertion) => Unselected(a, edges) && Touches(a, frontier), eligible))
  }

  function VisitReference(
      eligible: seq<Assertion>, q: Traversal, frontier: seq<Id>, seen: seq<Id>, edges: seq<Assertion>, depth: nat): Visited
    decreases depth
  {
    if depth == 0 || frontier == [] then Visited(seen, edges, false)
    else
      var adjacent := AdjacentReference(eligible, frontier, edges);
      var selected := Take(adjacent, q.limit - |edges|);
      var discovered := Discovered(selected, seen);
      var retained := Take(discovered, q.limit - |seen|);
      var next := VisitReference(eligible, q, retained, seen + retained, edges + selected, depth - 1);
      next.(truncated := next.truncated || |adjacent| > |selected| || |discovered| > |retained|)
  }

  /** The reference of the store contract, over a snapshot's lists. */
  function TraverseReference(entities: seq<Entity>, assertions: seq<Assertion>, q: Traversal): Subgraph {
    var eligible := Filter((a: Assertion) => Visible(a, q.perspective), assertions);
    var seeds := StartOf(q);
    var result := VisitReference(eligible, q, seeds, seeds, [], Min(q.depth, 3));
    var kept := Filter((e: Entity) => e.id in result.ids, entities);
    var ids := EntityIds(kept);
    Subgraph(
      kept,
      Filter((a: Assertion) => Endpoints(a) <= ids, result.edges),
      result.truncated || |q.seeds| > |seeds| || exists a | a in result.edges :: !(Endpoints(a) <= ids))
  }

  /** The lists hold the tables' rows, each once, in any order. */
  ghost predicate Lists(g: Graph, entities: seq<Entity>, assertions: seq<Assertion>) {
    && (forall e :: e in entities <==> e.id in g.entities && g.entities[e.id] == e)
    && (forall a :: a in assertions <==> a.id in g.assertions && g.assertions[a.id] == a)
    && DistinctIds(assertions)
  }

  predicate IdsIncreasing(edges: seq<Assertion>) {
    forall i, j | 0 <= i < j < |edges| :: edges[i].id < edges[j].id
  }

  lemma {:induction false} InsertHolds(a: Assertion, sorted: seq<Assertion>)
    ensures forall x :: x in InsertById(a, sorted) <==> x == a || x in sorted
  {
    if sorted != [] {
      InsertHolds(a, sorted[..|sorted| - 1]);
      assert sorted == sorted[..|sorted| - 1] + [sorted[|sorted| - 1]];
    }
  }

  lemma IncreasingAppends(sorted: seq<Assertion>, last: Assertion)
    requires IdsIncreasing(sorted) && forall x | x in sorted :: x.id < last.id
    ensures IdsIncreasing(sorted + [last])
  {
  }

  lemma IncreasingFront(sorted: seq<Assertion>)
    requires IdsIncreasing(sorted) && sorted != []
    ensures IdsIncreasing(sorted[..|sorted| - 1])
    ensures forall x | x in sorted[..|sorted| - 1] :: x in sorted && x.id < sorted[|sorted| - 1].id
    ensures forall x | x in sorted :: x.id <= sorted[|sorted| - 1].id
  {
  }

  lemma NoneIncreasing()
    ensures IdsIncreasing([])
  {
  }

  lemma {:induction false} InsertKeeps(a: Assertion, sorted: seq<Assertion>)
    requires IdsIncreasing(sorted) && Unselected(a, sorted)
    ensures IdsIncreasing(InsertById(a, sorted))
  {
    hide IdsIncreasing;
    if sorted == [] {
      NoneIncreasing();
      IncreasingAppends([], a);
      assert [] + [a] == [a];
    } else {
      var front, last := sorted[..|sorted| - 1], sorted[|sorted| - 1];
      IncreasingFront(sorted);
      if last.id > a.id {
        InsertKeeps(a, front);
        InsertHolds(a, front);
        IncreasingAppends(InsertById(a, front), last);
      } else {
        assert last in sorted;
        IncreasingAppends(sorted, a);
      }
    }
  }

  lemma {:induction false} SortSorts(edges: seq<Assertion>)
    requires DistinctIds(edges)
    ensures forall x :: x in SortById(edges) <==> x in edges
    ensures IdsIncreasing(SortById(edges))
  {
    if edges != [] {
      var front := edges[..|edges| - 1];
      assert edges == front + [edges[|edges| - 1]];
      SortSorts(front);
      InsertHolds(edges[|edges| - 1], SortById(front));
      InsertKeeps(edges[|edges| - 1], SortById(front));
    }
  }

  lemma {:induction false} IncreasingUnique(xs: seq<nat>, ys: seq<nat>)
    requires Increasing(xs) && Increasing(ys)
    requires forall v :: v in xs <==> v in ys
    ensures xs == ys
  {
    assert ys != [] ==> ys[0] in ys;
    if xs != [] {
      assert xs[0] in ys;
      assert ys[0] in xs;
      forall v ensures v in xs[1..] <==> v in ys[1..] {
        TailHolds(xs, v);
        TailHolds(ys, v);
      }
      IncreasingUnique(xs[1..], ys[1..]);
      assert xs == [xs[0]] + xs[1..] && ys == [ys[0]] + ys[1..];
    }
  }

  lemma TailHolds(xs: seq<nat>, v: nat)
    requires xs != [] && Increasing(xs)
    ensures v in xs[1..] <==> v in xs && v != xs[0]
  {
    if v in xs && v != xs[0] {
      var i :| 0 <= i < |xs| && xs[i] == v;
      assert xs[1..][i - 1] == v;
    }
  }

  function IdSeq(edges: seq<Assertion>): (r: seq<Id>)
    ensures |r| == |edges| && forall i | 0 <= i < |r| :: r[i] == edges[i].id
  {
    seq(|edges|, i requires 0 <= i < |edges| => edges[i].id)
  }

  /** Stored rows in id order are the rows of their ids in order. */
  lemma SortedRows(g: Graph, ids: set<Id>, edges: seq<Assertion>)
    requires IdsIncreasing(edges)
    requires forall a :: a in edges <==> a.id in ids && a.id in g.assertions && g.assertions[a.id] == a
    requires forall id | id in ids :: id in g.assertions && g.assertions[id].id == id
    ensures IdSeq(edges) == Ascending(ids)
    ensures forall i | 0 <= i < |edges| :: edges[i] == g.assertions[Ascending(ids)[i]]
  {
    forall id ensures id in IdSeq(edges) <==> id in Ascending(ids) {
      if id in ids {
        assert g.assertions[id] in edges;
        var i :| 0 <= i < |edges| && edges[i] == g.assertions[id];
        assert IdSeq(edges)[i] == id;
      }
      if id in IdSeq(edges) {
        var i :| 0 <= i < |edges| && IdSeq(edges)[i] == id;
        assert edges[i] in edges;
      }
    }
    IncreasingUnique(IdSeq(edges), Ascending(ids));
    forall i | 0 <= i < |edges| ensures edges[i] == g.assertions[Ascending(ids)[i]] {
      assert edges[i] in edges && IdSeq(edges)[i] == edges[i].id;
    }
  }

  /** Eligible assertions of a snapshot. */
  ghost predicate EligibleList(g: Graph, p: Perspective, eligible: seq<Assertion>) {
    && (forall a :: a in eligible <==> a.id in g.assertions && g.assertions[a.id] == a && Visible(a, p))
    && DistinctIds(eligible)
  }

  lemma {:induction false} FilterIds(keep: Assertion -> bool, edges: seq<Assertion>)
    requires DistinctIds(edges)
    ensures DistinctIds(Filter(keep, edges))
  {
    if edges != [] {
      var rest := edges[1..];
      forall i | 0 <= i < |rest| ensures rest[i].id != edges[0].id {
        assert rest[i] == edges[i + 1];
      }
      FilterIds(keep, rest);
      var kept := Filter(keep, rest);
      assert forall i | 0 <= i < |kept| :: kept[i] in rest && kept[i].id != edges[0].id;
    }
  }

  lemma AdjacentAgrees(g: Graph, p: Perspective, eligible: seq<Assertion>, frontier: seq<Id>, edges: seq<Assertion>, count: nat)
    requires KeysSound(g) && EligibleList(g, p, eligible)
    ensures var adjacent := AdjacentReference(eligible, frontier, edges);
      |adjacent| == |AdjacentIds(g, p, frontier, edges)| && Take(adjacent, count) == Found(g, p, frontier, edges, count)
  {
    var matching := Filter((a: Assertion) => Unselected(a, edges) && Touches(a, frontier), eligible);
    FilterIds((a: Assertion) => Unselected(a, edges) && Touches(a, frontier), eligible);
    SortSorts(matching);
    var ids := AdjacentIds(g, p, frontier, edges);
    var adjacent := AdjacentReference(eligible, frontier, edges);
    MatchingIs(g, p, eligible, frontier, edges);
    SortedRows(g, ids, adjacent);
    assert |adjacent| == |IdSeq(adjacent)|;
  }

  lemma MatchingIs(g: Graph, p: Perspective, eligible: seq<Assertion>, frontier: seq<Id>, edges: seq<Assertion>)
    requires KeysSound(g) && EligibleList(g, p, eligible)
    ensures forall a :: a in Filter((a: Assertion) => Unselected(a, edges) && Touches(a, frontier), eligible) <==>
                    a.id in AdjacentIds(g, p, frontier, edges) && g.assertions[a.id] == a
  {
    hide Visible, Touches;
    forall a ensures Unselected(a, edges) <==> a.id !in IdsOf(edges) {
    }
  }

  lemma HopAgrees(g: Graph, eligible: seq<Assertion>, q: Traversal, frontier: seq<Id>, seen: seq<Id>, edges: seq<Assertion>)
    requires KeysSound(g) && EligibleList(g, q.perspective, eligible) && |edges| <= q.limit
    ensures var adjacent := AdjacentReference(eligible, frontier, edges);
      var selected := Take(adjacent, q.limit - |edges|);
      var discovered := Discovered(selected, seen);
      var retained := Take(discovered, q.limit - |seen|);
      && |edges + selected| <= q.limit
      && NextHop(g, q, frontier, seen, edges) == Hop(selected, retained, |adjacent| > |selected| || |discovered| > |retained|)
  {
    hide KeysSound, EligibleList, AdjacentReference, Found, Discovered;
    AdjacentAgrees(g, q.perspective, eligible, frontier, edges, q.limit - |edges| + 1);
    var adjacent := AdjacentReference(eligible, frontier, edges);
    assert Take(Take(adjacent, q.limit - |edges| + 1), q.limit - |edges|) == Take(adjacent, q.limit - |edges|);
  }

  /** Hop by hop the two traversals select the same assertions in the same order. */
  lemma {:induction false} VisitsAgree(
      g: Graph, eligible: seq<Assertion>, q: Traversal, frontier: seq<Id>, seen: seq<Id>, edges: seq<Assertion>, depth: nat)
    requires KeysSound(g) && EligibleList(g, q.perspective, eligible) && |edges| <= q.limit
    ensures Visit(g, q, frontier, seen, edges, depth, false) == VisitReference(eligible, q, frontier, seen, edges, depth)
    decreases depth
  {
    hide KeysSound, EligibleList, AdjacentReference, NextHop, Take, Discovered;
    if depth != 0 && frontier != [] {
      var hop := NextHop(g, q, frontier, seen, edges);
      HopAgrees(g, eligible, q, frontier, seen, edges);
      VisitsAgree(g, eligible, q, hop.kept, seen + hop.kept, edges + hop.selected, depth - 1);
      VisitFlag(g, q, hop.kept, seen + hop.kept, edges + hop.selected, depth - 1);
    }
  }

  /** The filters of the last step, over the rows or over the lists. */
  lemma AnswersAgree(g: Graph, entities: seq<Entity>, result: Visited)
    requires KeysSound(g)
    requires forall e :: e in entities <==> e.id in g.entities && g.entities[e.id] == e
    ensures var kept := Filter((e: Entity) => e.id in result.ids, entities);
      var ids := EntityIds(kept);
      var answer := Answer(g, result);
      && (forall e :: e in kept <==> e in answer.entities)
      && answer.assertions == Filter((a: Assertion) => Endpoints(a) <= ids, result.edges)
      && (answer.truncated <==> result.truncated || exists a | a in result.edges :: !(Endpoints(a) <= ids))
  {
    hide StoredEntities, Endpoints;
    var kept := Filter((e: Entity) => e.id in result.ids, entities);
    var ids := EntityIds(kept);
    var answer := Answer(g, result);
    StoredEntitiesAre(g, result.ids);
    forall e ensures e in kept <==> e in answer.entities {
      if e in kept {
        assert e.id in StoredIds(g, result.ids);
        var other :| other in answer.entities && other.id == e.id;
      }
      if e in answer.entities {
        assert e.id in EntityIds(answer.entities);
      }
    }
    assert ids == EntityIds(answer.entities);
    var keep := (a: Assertion) => Endpoints(a) <= EntityIds(answer.entities);
    FilterSame(keep, (a: Assertion) => Endpoints(a) <= ids, result.edges);
    if forall a | a in result.edges :: Endpoints(a) <= ids {
      FilterEvery(keep, result.edges);
    }
  }

  lemma {:induction false} FilterSame<T(!new)>(keep: T -> bool, other: T -> bool, xs: seq<T>)
    requires forall x | x in xs :: keep(x) <==> other(x)
    ensures Filter(keep, xs) == Filter(other, xs)
  {
    if xs != [] {
      FilterSame(keep, other, xs[1..]);
    }
  }

  /** On every query the store answers as the in-memory reference does, the order of the entities aside. */
  lemma TraverseRefines(g: Graph, entities: seq<Entity>, assertions: seq<Assertion>, q: Traversal)
    requires KeysSound(g) && Lists(g, entities, assertions)
    ensures var stored := Traverse(g, q);
      var reference := TraverseReference(entities, assertions, q);
      && stored.assertions == reference.assertions
      && stored.truncated == reference.truncated
      && forall e :: e in stored.entities <==> e in reference.entities
  {
    hide StartOf, Answer, KeysSound, Visit, VisitReference, Visible;
    var eligible := Filter((a: Assertion) => Visible(a, q.perspective), assertions);
    var seeds := StartOf(q);
    var depth := Min(q.depth, 3);
    FilterIds((a: Assertion) => Visible(a, q.perspective), assertions);
    VisitsAgree(g, eligible, q, seeds, seeds, [], depth);
    VisitFlag(g, q, seeds, seeds, [], depth);
    AnswersAgree(g, entities, Visit(g, q, seeds, seeds, [], depth, |q.seeds| > |seeds|));
  }
}
