/** The order in which the built packages are published: a layered topological sort over names that may repeat. */
module PublishOrder {
  import opened Prelude

  datatype Manifest = Manifest(
    name: string, dependencies: set<string>, peerDependencies: set<string>, optionalDependencies: set<string>)

  datatype Built = Built(dir: string, manifest: Manifest)

  datatype Order = Order(ordered: seq<Built>, stuck: seq<Built>)

  /** A string comparison, as `localeCompare`: negative, zero or positive. */
  type Compare = (string, string) -> int

  ghost predicate TotalPreorder(compare: Compare) {
    && (forall a, b :: compare(a, b) <= 0 || compare(b, a) <= 0)
    && (forall a, b, c | compare(a, b) <= 0 && compare(b, c) <= 0 :: compare(a, c) <= 0)
  }

  function Names(builds: seq<Built>): (r: set<string>)
    ensures forall b | b in builds :: b.manifest.name in r
    ensures forall n | n in r :: exists b | b in builds :: b.manifest.name == n
  {
    set b | b in builds :: b.manifest.name
  }

  /** The plain, peer and optional dependencies of `manifest` that this build publishes itself. */
  function Internal(manifest: Manifest, names: set<string>): (r: set<string>)
    ensures r <= names - {manifest.name}
  {
    set name | name in manifest.dependencies + manifest.peerDependencies + manifest.optionalDependencies
               && "@xandreed/" <= name && name != manifest.name && name in names
  }

  /** The stable insertion of `b` behind everything that does not come after it by name. */
  function Insert(b: Built, sorted: seq<Built>, compare: Compare): (r: seq<Built>)
    ensures multiset(r) == multiset(sorted) + multiset{b}
  {
    if sorted == [] then [b]
    else
      var last := sorted[|sorted| - 1];
      assert sorted == sorted[..|sorted| - 1] + [last];
      if compare(last.manifest.name, b.manifest.name) <= 0 then sorted + [b]
      else Insert(b, sorted[..|sorted| - 1], compare) + [last]
  }

  function SortByName(builds: seq<Built>, compare: Compare): (r: seq<Built>)
    ensures multiset(r) == multiset(builds)
  {
    if builds == [] then []
    else
      assert builds == builds[..|builds| - 1] + [builds[|builds| - 1]];
      Insert(builds[|builds| - 1], SortByName(builds[..|builds| - 1], compare), compare)
  }

  predicate Ready(b: Built, placed: seq<Built>, names: set<string>) {
    Internal(b.manifest, names) <= Names(placed)
  }

  function Topological(pending: seq<Built>, placed: seq<Built>, names: set<string>, compare: Compare): Order
    decreases |pending|
  {
    var ready := Filter((b: Built) => Ready(b, placed, names), pending);
    if ready == [] then Order(placed, pending)
    else
      var rest := Filter((b: Built) => b !in ready, pending);
      assert ready[0] in pending && ready[0] !in rest;
      Topological(rest, placed + SortByName(ready, compare), names, compare)
  }

  /** As the publish plan starts it. */
  function PublishOrderOf(builds: seq<Built>, compare: Compare): Order {
    Topological(builds, [], Names(builds), compare)
  }

  // ---- nothing is lost, nothing is placed twice ----

  lemma {:induction false} FilterSplits<T(!new)>(keep: T -> bool, drop: T -> bool, xs: seq<T>)
    requires forall x | x in xs :: drop(x) <==> !keep(x)
    ensures multiset(Filter(keep, xs)) + multiset(Filter(drop, xs)) == multiset(xs)
  {
    hide Filter;
    if xs == [] {
      FilterNone(keep);
      FilterNone(drop);
    } else {
      FilterSplits(keep, drop, xs[1..]);
      FilterStep(keep, xs);
      FilterStep(drop, xs);
    }
  }

  lemma FilterNone<T(!new)>(keep: T -> bool)
    ensures Filter(keep, []) == []
  {
  }

  lemma FilterStep<T(!new)>(keep: T -> bool, xs: seq<T>)
    requires xs != []
    ensures multiset(Filter(keep, xs)) == multiset(Filter(keep, xs[1..])) + if keep(xs[0]) then multiset{xs[0]} else multiset{}
    ensures multiset(xs) == multiset(xs[1..]) + multiset{xs[0]}
  {
    assert xs == [xs[0]] + xs[1..];
  }

  lemma RoundSplits(pending: seq<Built>, placed: seq<Built>, names: set<string>)
    ensures var ready := Filter((b: Built) => Ready(b, placed, names), pending);
      multiset(ready) + multiset(Filter((b: Built) => b !in ready, pending)) == multiset(pending)
  {
    var ready := Filter((b: Built) => Ready(b, placed, names), pending);
    FilterSplits((b: Built) => Ready(b, placed, names), (b: Built) => b !in ready, pending);
  }

  lemma {:induction false} RoundsPartition(pending: seq<Built>, placed: seq<Built>, names: set<string>, compare: Compare)
    ensures var order := Topological(pending, placed, names, compare);
      multiset(order.ordered) + multiset(order.stuck) == multiset(placed) + multiset(pending)
    decreases |pending|
  {
    var ready := Filter((b: Built) => Ready(b, placed, names), pending);
    RoundSplits(pending, placed, names);
    if ready != [] {
      var rest := Filter((b: Built) => b !in ready, pending);
      assert ready[0] in pending && ready[0] !in rest;
      RoundsPartition(rest, placed + SortByName(ready, compare), names, compare);
    }
  }

  /** Every package, counted with its repetitions, is either ordered or stuck. */
  lemma OrderPartitions(builds: seq<Built>, compare: Compare)
    ensures var order := PublishOrderOf(builds, compare);
      multiset(order.ordered) + multiset(order.stuck) == multiset(builds)
  {
    RoundsPartition(builds, [], Names(builds), compare);
  }

  lemma OrderMembers(builds: seq<Built>, compare: Compare)
    ensures var order := PublishOrderOf(builds, compare);
      forall b :: b in builds <==> b in order.ordered || b in order.stuck
  {
    OrderPartitions(builds, compare);
    var order := PublishOrderOf(builds, compare);
    assert forall b :: b in builds <==> b in multiset(order.ordered) + multiset(order.stuck);
  }

  // ---- the order is the earliest one, round by round ----

  function Flatten(rounds: seq<seq<Built>>): seq<Built> {
    if rounds == [] then [] else Flatten(rounds[..|rounds| - 1]) + rounds[|rounds| - 1]
  }

  ghost predicate Sorted(builds: seq<Built>, compare: Compare) {
    forall i, j | 0 <= i < j < |builds| :: compare(builds[i].manifest.name, builds[j].manifest.name) <= 0
  }

  /** What is ready after the rounds before it and was not ready one round earlier, by name. */
  ghost predicate IsRound(round: seq<Built>, earlier: seq<seq<Built>>, names: set<string>, compare: Compare) {
    && Sorted(round, compare)
    && forall b | b in round ::
         && Ready(b, Flatten(earlier), names)
         && (earlier != [] ==> !Ready(b, Flatten(earlier[..|earlier| - 1]), names))
  }

  ghost predicate Layered(rounds: seq<seq<Built>>, names: set<string>, compare: Compare) {
    forall k | 0 <= k < |rounds| :: IsRound(rounds[k], rounds[..k], names, compare)
  }

  /** Appending what comes after the last element, or after every element. */
  lemma AppendSorted(sorted: seq<Built>, b: Built, compare: Compare)
    requires TotalPreorder(compare) && Sorted(sorted, compare)
    requires
      || (sorted != [] && compare(sorted[|sorted| - 1].manifest.name, b.manifest.name) <= 0)
      || forall x | x in sorted :: compare(x.manifest.name, b.manifest.name) <= 0
    ensures Sorted(sorted + [b], compare)
  {
    forall i | 0 <= i < |sorted| ensures compare(sorted[i].manifest.name, b.manifest.name) <= 0 {
      if i < |sorted| - 1 {
        var last := sorted[|sorted| - 1];
        assert compare(sorted[i].manifest.name, last.manifest.name) <= 0;
      }
    }
  }

  lemma {:induction false} InsertSorted(b: Built, sorted: seq<Built>, compare: Compare)
    requires TotalPreorder(compare) && Sorted(sorted, compare)
    ensures Sorted(Insert(b, sorted, compare), compare)
  {
    if sorted != [] {
      var last := sorted[|sorted| - 1];
      var front := sorted[..|sorted| - 1];
      if compare(last.manifest.name, b.manifest.name) <= 0 {
        AppendSorted(sorted, b, compare);
      } else {
        InsertSorted(b, front, compare);
        var inserted := Insert(b, front, compare);
        forall x | x in inserted ensures compare(x.manifest.name, last.manifest.name) <= 0 {
          assert x in multiset(inserted);
        }
        AppendSorted(inserted, last, compare);
      }
    }
  }

  lemma {:induction false} SortSorts(builds: seq<Built>, compare: Compare)
    requires TotalPreorder(compare)
    ensures Sorted(SortByName(builds, compare), compare)
  {
    if builds != [] {
      SortSorts(builds[..|builds| - 1], compare);
      InsertSorted(builds[|builds| - 1], SortByName(builds[..|builds| - 1], compare), compare);
    }
  }

  lemma SortKeeps(builds: seq<Built>, compare: Compare)
    ensures forall b :: b in SortByName(builds, compare) <==> b in builds
  {
    assert forall b :: b in SortByName(builds, compare) <==> b in multiset(SortByName(builds, compare));
    assert forall b :: b in builds <==> b in multiset(builds);
  }

  lemma LayersExtend(rounds: seq<seq<Built>>, round: seq<Built>, names: set<string>, compare: Compare)
    requires Layered(rounds, names, compare) && IsRound(round, rounds, names, compare)
    ensures Layered(rounds + [round], names, compare)
  {
    hide IsRound;
    var next := rounds + [round];
    forall k | 0 <= k < |next| ensures IsRound(next[k], next[..k], names, compare) {
      assert next[..k] == rounds[..k];
      if k == |rounds| { assert rounds[..k] == rounds; }
    }
  }

  lemma {:induction false} RoundsLayered(
      pending: seq<Built>, rounds: seq<seq<Built>>, names: set<string>, compare: Compare)
      returns (all: seq<seq<Built>>)
    requires TotalPreorder(compare) && Layered(rounds, names, compare)
    requires rounds != [] ==> forall b | b in pending :: !Ready(b, Flatten(rounds[..|rounds| - 1]), names)
    ensures Layered(all, names, compare)
    ensures var order := Topological(pending, Flatten(rounds), names, compare);
      && order.ordered == Flatten(all)
      && forall b | b in order.stuck :: !Ready(b, order.ordered, names)
    decreases |pending|
  {
    var placed := Flatten(rounds);
    var ready := Filter((b: Built) => Ready(b, placed, names), pending);
    if ready == [] {
      all := rounds;
    } else {
      var rest := Filter((b: Built) => b !in ready, pending);
      assert ready[0] in pending && ready[0] !in rest;
      var round := SortByName(ready, compare);
      var next := rounds + [round];
      SortSorts(ready, compare);
      SortKeeps(ready, compare);
      LayersExtend(rounds, round, names, compare);
      assert next[..|next| - 1] == rounds;
      all := RoundsLayered(rest, next, names, compare);
    }
  }

  /** The order is the layering that places every package, by name within a round, as early as its dependencies allow. */
  lemma OrderIsLayered(builds: seq<Built>, compare: Compare) returns (rounds: seq<seq<Built>>)
    requires TotalPreorder(compare)
    ensures PublishOrderOf(builds, compare).ordered == Flatten(rounds)
    ensures Layered(rounds, Names(builds), compare)
  {
    rounds := RoundsLayered(builds, [], Names(builds), compare);
  }

  /** Whether each package stands behind some package of every name it depends on. */
  ghost predicate DependenciesFirst(ordered: seq<Built>, names: set<string>) {
    forall i | 0 <= i < |ordered| :: Ready(ordered[i], ordered[..i], names)
  }

  lemma {:induction false} RoundsOrdered(pending: seq<Built>, placed: seq<Built>, names: set<string>, compare: Compare)
    requires DependenciesFirst(placed, names)
    ensures var order := Topological(pending, placed, names, compare);
      && DependenciesFirst(order.ordered, names)
      && forall b | b in order.stuck :: !Ready(b, order.ordered, names)
    decreases |pending|
  {
    var ready := Filter((b: Built) => Ready(b, placed, names), pending);
    if ready != [] {
      var rest := Filter((b: Built) => b !in ready, pending);
      assert ready[0] in pending && ready[0] !in rest;
      var round := SortByName(ready, compare);
      SortKeeps(ready, compare);
      var next := placed + round;
      forall i | 0 <= i < |next| ensures Ready(next[i], next[..i], names) {
        if i < |placed| {
          assert next[..i] == placed[..i];
        } else {
          assert next[i] in round;
          assert next[..i] == placed + round[..i - |placed|];
          assert Names(placed) <= Names(next[..i]);
        }
      }
      RoundsOrdered(rest, next, names, compare);
    }
  }

  /** Every package of the order comes after a package of each internal name it depends on. */
  lemma OrderRespectsDependencies(builds: seq<Built>, compare: Compare)
    ensures DependenciesFirst(PublishOrderOf(builds, compare).ordered, Names(builds))
  {
    RoundsOrdered(builds, [], Names(builds), compare);
  }

  predicate DistinctNames(builds: seq<Built>) {
    forall i, j | 0 <= i < j < |builds| :: builds[i].manifest.name != builds[j].manifest.name
  }

  // ---- what stuck means ----

  /** Some name that `b` depends on is borne only by packages of `s`. */
  ghost predicate Starved(b: Built, s: set<Built>, builds: seq<Built>) {
    exists name | name in Internal(b.manifest, Names(builds)) ::
      forall other | other in builds && other.manifest.name == name :: other in s
  }

  /** A set of packages none of which can ever be ready. */
  ghost predicate Unfounded(s: set<Built>, builds: seq<Built>) {
    forall b | b in s :: b in builds && Starved(b, s, builds)
  }

  lemma {:induction false} UnfoundedNeverPlaced(
      s: set<Built>, builds: seq<Built>, pending: seq<Built>, placed: seq<Built>, compare: Compare)
    requires Unfounded(s, builds)
    requires forall b | b in placed :: b in builds && b !in s
    requires forall b | b in pending :: b in builds
    ensures forall b | b in Topological(pending, placed, Names(builds), compare).ordered :: b !in s
    decreases |pending|
  {
    var names := Names(builds);
    var ready := Filter((b: Built) => Ready(b, placed, names), pending);
    if ready != [] {
      var rest := Filter((b: Built) => b !in ready, pending);
      assert ready[0] in pending && ready[0] !in rest;
      SortKeeps(ready, compare);
      forall b | b in ready ensures b !in s {
        forall name | name in Internal(b.manifest, names)
          ensures exists other | other in builds && other.manifest.name == name :: other !in s
        {
          var other :| other in placed && other.manifest.name == name;
        }
      }
      UnfoundedNeverPlaced(s, builds, rest, placed + SortByName(ready, compare), compare);
    }
  }

  lemma StuckUnfounded(builds: seq<Built>, compare: Compare)
    ensures Unfounded((set b | b in PublishOrderOf(builds, compare).stuck), builds)
  {
    var order := PublishOrderOf(builds, compare);
    var names := Names(builds);
    var s := set b | b in order.stuck;
    OrderMembers(builds, compare);
    RoundsOrdered(builds, [], names, compare);
    forall b | b in s
      ensures Starved(b, s, builds)
    {
      var name :| name in Internal(b.manifest, names) && name !in Names(order.ordered);
    }
  }

  lemma UnfoundedNotOrdered(s: set<Built>, builds: seq<Built>, compare: Compare)
    requires Unfounded(s, builds)
    ensures forall b | b in s :: b in builds && b !in PublishOrderOf(builds, compare).ordered
  {
    UnfoundedNeverPlaced(s, builds, builds, [], compare);
  }

  /** The stuck packages are the largest unfounded set: whatever can be ordered is. */
  lemma StuckIsUnfounded(builds: seq<Built>, compare: Compare, b: Built)
    ensures b in PublishOrderOf(builds, compare).stuck <==> exists s :: b in s && Unfounded(s, builds)
  {
    hide PublishOrderOf, Unfounded;
    var order := PublishOrderOf(builds, compare);
    OrderMembers(builds, compare);
    StuckUnfounded(builds, compare);
    if b in order.stuck {
      assert b in (set x | x in order.stuck);
    }
    if s :| b in s && Unfounded(s, builds) {
      UnfoundedNotOrdered(s, builds, compare);
    }
  }

  /** Exactly when some packages stay behind, whatever names repeat: some nonempty set of them is unfounded. */
  lemma StuckIffUnfounded(builds: seq<Built>, compare: Compare)
    ensures PublishOrderOf(builds, compare).stuck != [] <==> exists s :: s != {} && Unfounded(s, builds)
  {
    hide PublishOrderOf, Unfounded;
    var stuck := PublishOrderOf(builds, compare).stuck;
    if stuck != [] {
      StuckUnfounded(builds, compare);
      var s := set b | b in stuck;
      assert stuck[0] in s;
      assert s != {} && Unfounded(s, builds);
    }
    if s :| s != {} && Unfounded(s, builds) {
      var b :| b in s;
      StuckIsUnfounded(builds, compare, b);
    }
  }

  // ---- cycles ----

  ghost predicate Depends(from: Built, to: Built, names: set<string>) {
    to.manifest.name in Internal(from.manifest, names)
  }

  ghost predicate StepAt(path: seq<Built>, i: nat, names: set<string>) {
    0 < i < |path| && Depends(path[i - 1], path[i], names)
  }

  ghost predicate Walk(path: seq<Built>, builds: seq<Built>) {
    && (forall b | b in path :: b in builds)
    && forall i | 0 < i < |path| :: StepAt(path, i, Names(builds))
  }

  /** A closed walk along internal dependencies. */
  ghost predicate Cycle(path: seq<Built>, builds: seq<Built>) {
    path != [] && Walk(path, builds) && Depends(path[|path| - 1], path[0], Names(builds))
  }

  ghost predicate DependsWithin(b: Built, s: set<Built>, names: set<string>) {
    exists other | other in s :: Depends(b, other, names)
  }

  lemma NextWithin(b: Built, s: set<Built>, names: set<string>) returns (other: Built)
    requires DependsWithin(b, s, names)
    ensures other in s && Depends(b, other, names)
  {
    other :| other in s && Depends(b, other, names);
  }

  /** Inside a set where every package depends on another one of the set, some walk comes back. */
  lemma {:induction false} WalkCloses(path: seq<Built>, s: set<Built>, builds: seq<Built>) returns (cycle: seq<Built>)
    requires path != [] && Walk(path, builds) && NoDuplicates(path)
    requires forall b | b in path :: b in s
    requires forall b | b in s :: b in builds && DependsWithin(b, s, Names(builds))
    ensures Cycle(cycle, builds)
    decreases |s| - |path|
  {
    hide Depends, DependsWithin, Names;
    DistinctFits(path, s);
    assert path[|path| - 1] in path;
    var next := NextWithin(path[|path| - 1], s, Names(builds));
    if next in path {
      var i :| 0 <= i < |path| && path[i] == next;
      cycle := path[i..];
      forall k | 0 < k < |cycle| ensures StepAt(cycle, k, Names(builds)) {
        assert StepAt(path, i + k, Names(builds));
      }
      assert forall b | b in cycle :: b in path;
    } else {
      var longer := path + [next];
      DistinctFits(longer, s);
      forall k | 0 < k < |longer| ensures StepAt(longer, k, Names(builds)) {
        if k < |path| { assert StepAt(path, k, Names(builds)); }
      }
      cycle := WalkCloses(longer, s, builds);
    }
  }

  lemma StarvedDepends(s: set<Built>, builds: seq<Built>, b: Built)
    requires Starved(b, s, builds)
    ensures DependsWithin(b, s, Names(builds))
  {
    var name :| name in Internal(b.manifest, Names(builds)) &&
      forall other | other in builds && other.manifest.name == name :: other in s;
    var other :| other in builds && other.manifest.name == name;
    assert Depends(b, other, Names(builds));
  }

  /** A nonempty stuck answer always means a dependency cycle. */
  lemma StuckMeansCycle(builds: seq<Built>, compare: Compare) returns (cycle: seq<Built>)
    requires PublishOrderOf(builds, compare).stuck != []
    ensures Cycle(cycle, builds)
  {
    hide PublishOrderOf, DependsWithin, Starved;
    var order := PublishOrderOf(builds, compare);
    var s := set b | b in order.stuck;
    StuckUnfounded(builds, compare);
    forall b | b in s ensures DependsWithin(b, s, Names(builds)) {
      StarvedDepends(s, builds, b);
    }
    assert order.stuck[0] in s;
    cycle := WalkCloses([order.stuck[0]], s, builds);
  }

  lemma CycleUnfounded(path: seq<Built>, builds: seq<Built>)
    requires Cycle(path, builds) && DistinctNames(builds)
    ensures Unfounded((set b | b in path), builds)
  {
    var s := set b | b in path;
    var names := Names(builds);
    forall b | b in s
      ensures Starved(b, s, builds)
    {
      var i :| 0 <= i < |path| && path[i] == b;
      var next := if i + 1 < |path| then path[i + 1] else path[0];
      assert Depends(b, next, names) by {
        if i + 1 < |path| { assert StepAt(path, i + 1, names); }
      }
      assert next in path;
      assert next.manifest.name in Internal(b.manifest, names);
    }
  }

  /** With one package to a name, the order is stuck exactly when the internal dependencies have a cycle. */
  lemma StuckIffCycle(builds: seq<Built>, compare: Compare)
    requires DistinctNames(builds)
    ensures PublishOrderOf(builds, compare).stuck != [] <==> exists path :: Cycle(path, builds)
  {
    if PublishOrderOf(builds, compare).stuck != [] {
      var cycle := StuckMeansCycle(builds, compare);
    }
    if path :| Cycle(path, builds) {
      CycleUnfounded(path, builds);
      assert path[0] in (set b | b in path);
      StuckIsUnfounded(builds, compare, path[0]);
    }
  }

  /** Where two packages share a name a cycle may go unnoticed: the other package of the name breaks it. */
  lemma RepeatedNameHidesCycle(compare: Compare) returns (builds: seq<Built>, path: seq<Built>)
    ensures !DistinctNames(builds) && Cycle(path, builds) && PublishOrderOf(builds, compare).stuck == []
  {
    hide PublishOrderOf;
    var x, y := "@xandreed/x", "@xandreed/y";
    var plain := Built("a", Manifest(x, {}, {}, {}));
    var looping := Built("b", Manifest(x, {y}, {}, {}));
    var other := Built("c", Manifest(y, {x}, {}, {}));
    builds, path := [plain, looping, other], [looping, other];
    assert x[10] != y[10];
    assert builds[0].manifest.name == builds[1].manifest.name;
    assert plain in builds && looping in builds && other in builds;
    assert Internal(plain.manifest, Names(builds)) == {};
    assert Internal(looping.manifest, Names(builds)) == {y};
    assert Internal(other.manifest, Names(builds)) == {x};
    assert Depends(path[0], path[1], Names(builds)) && Depends(path[1], path[0], Names(builds));
    NothingStuck(builds, compare, plain, looping, other);
  }

  lemma NothingStuck(builds: seq<Built>, compare: Compare, plain: Built, looping: Built, other: Built)
    requires builds == [plain, looping, other]
    requires Internal(plain.manifest, Names(builds)) == {}
    requires Internal(looping.manifest, Names(builds)) == {other.manifest.name}
    requires Internal(other.manifest, Names(builds)) == {plain.manifest.name}
    requires looping.manifest.name != other.manifest.name && plain.manifest.name != other.manifest.name
    ensures PublishOrderOf(builds, compare).stuck == []
  {
    hide PublishOrderOf, Internal, Names;
    var order := PublishOrderOf(builds, compare);
    forall s | Unfounded(s, builds) ensures plain !in s && other !in s && looping !in s {
    }
    OrderMembers(builds, compare);
    assert forall b | b in builds :: b == plain || b == looping || b == other;
    if order.stuck != [] {
      StuckIsUnfounded(builds, compare, order.stuck[0]);
    }
  }
}
