/** What a publication keeps and what it guarantees, from its table-by-table meaning alone. */
module KnowledgeLaws {
  import opened Prelude
  import opened Closure
  import opened KnowledgeModel
  import opened KnowledgeTables
  import opened KnowledgeGraph
  import opened KnowledgePublish

  // ---- the graph stays sound ----

  lemma MemoryRowExact(g: Graph, stage: Stage, source: Ref, now: Time, after: Graph, r: Row)
    requires RowsExact(g) && IdsDistinct(stage) && MemoriesReplaced(g, stage, source, now, after) && RowsReplaced(g, stage, source, now, after)
    requires r.kind.MemoryKind?
    ensures r in after.recordSources <==> Cites(after, r.kind, r.id, r.source)
  {
    hide IdsDistinct, StrippedBy, RetiredBy, Stale;
    assert r in g.recordSources <==> Cites(g, r.kind, r.id, r.source);
    assert r in after.recordSources <==> RowStays(g, stage, source, now, r) || RowComes(stage, after, r);
    if r.id in g.memories {
      assert MemoryAfter(g, stage, source, now, r.id, after.memories[r.id]);
    } else if r.id in StagedMemories(stage) {
      var m :| m in stage.memories && m.id == r.id;
      forall other | other in stage.memories && other.id == r.id ensures other == m { SameStaged(stage, m, other); }
    }
  }

  lemma AssertionRowExact(g: Graph, stage: Stage, source: Ref, now: Time, after: Graph, r: Row)
    requires RowsExact(g) && AssertionsReplaced(g, stage, source, now, after) && RowsReplaced(g, stage, source, now, after)
    requires r.kind.AssertionKind?
    ensures r in after.recordSources <==> Cites(after, r.kind, r.id, r.source)
  {
    hide StrippedBy, Stale;
    assert r in g.recordSources <==> Cites(g, r.kind, r.id, r.source);
    assert r in after.recordSources <==> RowStays(g, stage, source, now, r) || RowComes(stage, after, r);
    if r.id in StagedAssertions(stage) {
      var a :| a in stage.assertions && a.id == r.id;
      forall other | other in stage.assertions && other.id == r.id ensures other.provenance == a.provenance {
        assert after.assertions[r.id] == StoredAssertion(other, now) == StoredAssertion(a, now);
      }
    }
  }

  lemma EntityRowExact(g: Graph, stage: Stage, source: Ref, now: Time, after: Graph, r: Row)
    requires RowsExact(g) && EntitiesReplaced(g, stage, after) && RowsReplaced(g, stage, source, now, after)
    requires r.kind.EntityKind?
    ensures r in after.recordSources <==> Cites(after, r.kind, r.id, r.source)
  {
    hide StrippedBy, Stale, MergeEntity;
    assert r in g.recordSources <==> Cites(g, r.kind, r.id, r.source);
    assert r in after.recordSources <==> RowStays(g, stage, source, now, r) || RowComes(stage, after, r);
  }

  lemma NoChunkRow(g: Graph, stage: Stage, source: Ref, now: Time, after: Graph, r: Row)
    requires RowsExact(g) && RowsReplaced(g, stage, source, now, after) && r.kind.ChunkKind?
    ensures r !in after.recordSources
  {
    assert r !in g.recordSources;
    assert r in after.recordSources <==> RowStays(g, stage, source, now, r) || RowComes(stage, after, r);
  }

  lemma RowsStayExact(g: Graph, stage: Stage, source: Ref, now: Time, after: Graph, r: Row)
    requires RowsExact(g) && IdsDistinct(stage) && Replaces(g, stage, source, now, after)
    ensures r in after.recordSources <==> !r.kind.ChunkKind? && Cites(after, r.kind, r.id, r.source)
  {
    hide RowsExact, IdsDistinct, MemoriesReplaced, AssertionsReplaced, EntitiesReplaced, ChunksReplaced, RowsReplaced, TiesReplaced, Cites;
    match r.kind
    case MemoryKind => MemoryRowExact(g, stage, source, now, after, r);
    case ChunkKind => NoChunkRow(g, stage, source, now, after, r);
    case EntityKind => EntityRowExact(g, stage, source, now, after, r);
    case AssertionKind => AssertionRowExact(g, stage, source, now, after, r);
  }

  lemma ProvenanceStays(g: Graph, stage: Stage, source: Ref, now: Time, after: Graph, kind: Kind, id: Id)
    requires KeysSound(g) && ProvenanceKept(g) && Replaces(g, stage, source, now, after) && Present(after, kind, id)
    requires ProvenanceGiven(stage) && forall e | e in stage.entities :: e.provenance != []
    ensures Provenance(after, kind, id) != []
    ensures kind.MemoryKind? ==> after.memories[id].id == id
    ensures kind.ChunkKind? ==> after.chunks[id].id == id
    ensures kind.EntityKind? ==> after.entities[id].id == id
    ensures kind.AssertionKind? ==> after.assertions[id].id == id
  {
    assert Present(g, kind, id) ==> Provenance(g, kind, id) != [];
    if kind.MemoryKind? && id in StagedMemories(stage) {
      var m :| m in stage.memories && m.id == id;
    } else if kind.EntityKind? && id in StagedEntities(stage) {
      var e :| e in stage.entities && e.id == id;
      assert e.provenance[0] in after.entities[id].provenance;
    } else if kind.AssertionKind? && id in StagedAssertions(stage) {
      var a :| a in stage.assertions && a.id == id;
    }
  }

  lemma SupportsStayExact(g: Graph, stage: Stage, source: Ref, now: Time, after: Graph, m: Id, s: Id)
    requires SupportsExact(g) && IdsDistinct(stage) && Replaces(g, stage, source, now, after)
    ensures (m, s) in after.supports <==> m in after.memories && s in Supports(after.memories[m])
  {
    assert (m, s) in g.supports <==> m in g.memories && s in Supports(g.memories[m]);
    if m in StagedMemories(stage) {
      var staged :| staged in stage.memories && staged.id == m;
      forall other | other in stage.memories && other.id == m ensures other == staged { SameStaged(stage, staged, other); }
    }
  }

  lemma MemoryReferences(g: Graph, stage: Stage, source: Ref, now: Time, after: Graph, snapshot: Snapshot, id: Id)
    requires ReferencesKept(g) && Replaces(g, stage, source, now, after) && id in after.memories
    requires snapshot.memories == g.memories && snapshot.entities == g.entities
    requires EntitiesKnown(stage, snapshot) && SupportsKnown(stage, snapshot)
    ensures forall e | e in after.memories[id].entities :: e in after.entities
    ensures forall s | s in Supports(after.memories[id]) :: s in after.memories
  {
    if id in StagedMemories(stage) {
      var m :| m in stage.memories && m.id == id;
      assert forall s | s in Supports(m) :: s in Citable(stage, snapshot);
    }
  }

  lemma AssertionReferences(g: Graph, stage: Stage, source: Ref, now: Time, after: Graph, snapshot: Snapshot, id: Id)
    requires ReferencesKept(g) && Replaces(g, stage, source, now, after) && id in after.assertions
    requires snapshot.entities == g.entities && EntitiesKnown(stage, snapshot)
    ensures forall e | e in Endpoints(after.assertions[id]) :: e in after.entities
  {
    if id in StagedAssertions(stage) {
      var a :| a in stage.assertions && a.id == id;
    }
  }

  lemma PublishedRows(g: Graph, stage: Stage, source: Ref, now: Time, after: Graph)
    requires RowsExact(g) && IdsDistinct(stage) && Replaces(g, stage, source, now, after)
    ensures RowsExact(after)
  {
    forall r: Row ensures r in after.recordSources <==> !r.kind.ChunkKind? && Cites(after, r.kind, r.id, r.source) {
      RowsStayExact(g, stage, source, now, after, r);
    }
  }

  lemma PublishedProvenance(g: Graph, stage: Stage, source: Ref, now: Time, after: Graph)
    requires KeysSound(g) && ProvenanceKept(g) && Replaces(g, stage, source, now, after)
    requires ProvenanceGiven(stage) && forall e | e in stage.entities :: e.provenance != []
    ensures ProvenanceKept(after) && KeysSound(after)
  {
    forall kind, id | Present(after, kind, id) ensures Provenance(after, kind, id) != [] {
      ProvenanceStays(g, stage, source, now, after, kind, id);
    }
    forall id | id in after.memories ensures after.memories[id].id == id { ProvenanceStays(g, stage, source, now, after, MemoryKind, id); }
    forall id | id in after.chunks ensures after.chunks[id].id == id { ProvenanceStays(g, stage, source, now, after, ChunkKind, id); }
    forall id | id in after.entities ensures after.entities[id].id == id { ProvenanceStays(g, stage, source, now, after, EntityKind, id); }
    forall id | id in after.assertions ensures after.assertions[id].id == id { ProvenanceStays(g, stage, source, now, after, AssertionKind, id); }
  }

  lemma PublishedTies(g: Graph, stage: Stage, source: Ref, now: Time, after: Graph)
    requires SupportsExact(g) && IdsDistinct(stage) && Replaces(g, stage, source, now, after)
    ensures SupportsExact(after)
  {
    forall m, s ensures (m, s) in after.supports <==> m in after.memories && s in Supports(after.memories[m]) {
      SupportsStayExact(g, stage, source, now, after, m, s);
    }
  }

  lemma PublishedOwners(g: Graph, stage: Stage, source: Ref, now: Time, after: Graph)
    requires OwnersKnown(g) && Replaces(g, stage, source, now, after)
    ensures OwnersKnown(after)
  {
    hide MemoryAfter, RowsReplaced, MergeEntity, Present;
    forall kind: Kind, id | !kind.EntityKind? && Present(after, kind, id) ensures Key(kind, id) in after.identities {
      PresentAfter(g, stage, source, now, after, kind, id);
    }
  }

  lemma PresentAfter(g: Graph, stage: Stage, source: Ref, now: Time, after: Graph, kind: Kind, id: Id)
    requires Replaces(g, stage, source, now, after) && !kind.EntityKind? && Present(after, kind, id)
    ensures Present(g, kind, id) || Key(kind, id) in StagedKeys(stage)
  {
    hide MemoryAfter, RowsReplaced, MergeEntity;
  }

  lemma PublishedReferences(g: Graph, stage: Stage, source: Ref, now: Time, after: Graph, snapshot: Snapshot)
    requires ReferencesKept(g) && Replaces(g, stage, source, now, after)
    requires snapshot.memories == g.memories && snapshot.entities == g.entities
    requires EntitiesKnown(stage, snapshot) && SupportsKnown(stage, snapshot)
    ensures ReferencesKept(after)
  {
    forall id | id in after.memories
      ensures forall e | e in after.memories[id].entities :: e in after.entities
      ensures forall s | s in Supports(after.memories[id]) :: s in after.memories
    {
      MemoryReferences(g, stage, source, now, after, snapshot, id);
    }
    forall id | id in after.assertions ensures forall e | e in Endpoints(after.assertions[id]) :: e in after.entities {
      AssertionReferences(g, stage, source, now, after, snapshot, id);
    }
  }

  /** Publishing an admitted stage keeps every tie between the graph's tables. */
  lemma PublishedSound(g: Graph, stage: Stage, source: Ref, now: Time, after: Graph, snapshot: Snapshot)
    requires GraphInv(g) && Replaces(g, stage, source, now, after)
    requires snapshot.memories == g.memories && snapshot.entities == g.entities
    requires IdsDistinct(stage) && ProvenanceGiven(stage) && EntitiesKnown(stage, snapshot) && SupportsKnown(stage, snapshot)
    ensures GraphInv(after)
  {
    PublishedRows(g, stage, source, now, after);
    PublishedProvenance(g, stage, source, now, after);
    PublishedTies(g, stage, source, now, after);
    PublishedOwners(g, stage, source, now, after);
    PublishedReferences(g, stage, source, now, after, snapshot);
  }

  // ---- retirement is closed under inference ----

  /** Every active inferred memory rests on active memories. */
  predicate InferenceClosed(g: Graph) {
    forall id | id in g.memories && Active(g.memories[id]) ::
      forall s | s in Supports(g.memories[id]) :: s in g.memories && Active(g.memories[s])
  }

  /** The memory itself, what it is inferred from, and so on. */
  function Foundations(g: Graph, id: Id): set<Id> {
    Reach(g.supports, {id})
  }

  lemma RetiredClosed(g: Graph, stage: Stage, source: Ref, now: Time, m: Id, s: Id)
    requires (m, s) in g.supports && s in RetiredBy(g, stage, source, now)
    ensures m in RetiredBy(g, stage, source, now)
  {
    assert (s, m) in Inferences(g.supports);
  }

  /** No memory active before and after a publication rests, at any remove, on one that it retired. */
  lemma SurvivorsRestOnSurvivors(g: Graph, stage: Stage, source: Ref, now: Time, after: Graph, id: Id)
    requires Replaces(g, stage, source, now, after)
    requires id in g.memories && Active(g.memories[id]) && Active(after.memories[id])
    ensures Foundations(g, id) !! RetiredBy(g, stage, source, now)
  {
    assert MemoryAfter(g, stage, source, now, id, after.memories[id]);
    var kept := Foundations(g, id) - RetiredBy(g, stage, source, now);
    forall e | e in g.supports && e.0 in kept ensures e.1 in kept {
      if e.1 in RetiredBy(g, stage, source, now) { RetiredClosed(g, stage, source, now, e.0, e.1); }
    }
    ReachLeast(g.supports, {id}, kept);
  }

  /** No staged inference rests on a stored memory its own publication retires. */
  predicate SupportsSurvive(g: Graph, stage: Stage, source: Ref, now: Time) {
    forall m | m in stage.memories :: forall s | s in Supports(m) && s in g.memories :: s !in RetiredBy(g, stage, source, now)
  }

  lemma StoredInference(g: Graph, stage: Stage, source: Ref, now: Time, after: Graph, id: Id)
    requires SupportsExact(g) && InferenceClosed(g) && Replaces(g, stage, source, now, after)
    requires id in g.memories && Active(after.memories[id])
    ensures forall s | s in Supports(after.memories[id]) :: s in after.memories && Active(after.memories[s])
  {
    assert MemoryAfter(g, stage, source, now, id, after.memories[id]);
    forall s | s in Supports(g.memories[id]) ensures s in after.memories && Active(after.memories[s]) {
      assert (id, s) in g.supports;
      if s in RetiredBy(g, stage, source, now) { RetiredClosed(g, stage, source, now, id, s); }
      assert MemoryAfter(g, stage, source, now, s, after.memories[s]);
    }
  }

  lemma StagedInference(g: Graph, stage: Stage, source: Ref, now: Time, after: Graph, snapshot: Snapshot, m: Memory, s: Id)
    requires Replaces(g, stage, source, now, after) && SupportsKnown(stage, snapshot) && snapshot.memories == g.memories
    requires m in stage.memories && s in Supports(m)
    ensures s in after.memories
    ensures Active(after.memories[s]) <==> (s in g.memories ==> s !in RetiredBy(g, stage, source, now))
  {
    assert s in Citable(stage, snapshot);
    if s in g.memories {
      assert MemoryAfter(g, stage, source, now, s, after.memories[s]);
    } else {
      var staged :| staged in stage.memories && staged.id == s;
      assert after.memories[s] == StoredMemory(staged, now);
    }
  }

  lemma SurvivingSupportsSuffice(g: Graph, stage: Stage, source: Ref, now: Time, after: Graph, snapshot: Snapshot)
    requires SupportsExact(g) && InferenceClosed(g) && Replaces(g, stage, source, now, after)
    requires SupportsKnown(stage, snapshot) && snapshot.memories == g.memories && SupportsSurvive(g, stage, source, now)
    ensures InferenceClosed(after)
  {
    forall id | id in after.memories && Active(after.memories[id])
      ensures forall s | s in Supports(after.memories[id]) :: s in after.memories && Active(after.memories[s])
    {
      if id in g.memories { StoredInference(g, stage, source, now, after, id); }
      else {
        var m :| m in stage.memories && m.id == id;
        forall s | s in Supports(m) ensures s in after.memories && Active(after.memories[s]) {
          StagedInference(g, stage, source, now, after, snapshot, m, s);
        }
      }
    }
  }

  lemma RetiredSupportBreaks(g: Graph, stage: Stage, source: Ref, now: Time, after: Graph, m: Memory, s: Id)
    requires MemoriesReplaced(g, stage, source, now, after)
    requires m in stage.memories && s in Supports(m) && s in g.memories && s in RetiredBy(g, stage, source, now)
    ensures !InferenceClosed(after)
  {
    assert MemoryAfter(g, stage, source, now, s, after.memories[s]);
    assert after.memories[m.id] == StoredMemory(m, now);
  }

  /**
   * A publication keeps every active inferred memory resting on active ones exactly when no staged inference
   * rests on a memory the publication itself retires.
   */
  lemma InferenceClosedKept(g: Graph, stage: Stage, source: Ref, now: Time, after: Graph, snapshot: Snapshot)
    requires SupportsExact(g) && InferenceClosed(g) && Replaces(g, stage, source, now, after)
    requires SupportsKnown(stage, snapshot) && snapshot.memories == g.memories
    ensures InferenceClosed(after) <==> SupportsSurvive(g, stage, source, now)
  {
    if SupportsSurvive(g, stage, source, now) {
      SurvivingSupportsSuffice(g, stage, source, now, after, snapshot);
    } else {
      var m, s :| m in stage.memories && s in Supports(m) && s in g.memories && s in RetiredBy(g, stage, source, now);
      RetiredSupportBreaks(g, stage, source, now, after, m, s);
    }
  }

  // ---- inference is well founded ----

  predicate Walk(edges: set<(Id, Id)>, p: seq<Id>) {
    forall i | 0 <= i < |p| - 1 :: (p[i], p[i + 1]) in edges
  }

  /** No memory rests, at any remove, on itself. */
  ghost predicate Acyclic(edges: set<(Id, Id)>) {
    forall p: seq<Id> | |p| >= 2 && Walk(edges, p) :: p[0] != p[|p| - 1]
  }

  lemma AcyclicSubset(edges: set<(Id, Id)>, fewer: set<(Id, Id)>)
    requires Acyclic(edges) && fewer <= edges
    ensures Acyclic(fewer)
  {
    forall p: seq<Id> | |p| >= 2 && Walk(fewer, p) ensures p[0] != p[|p| - 1] {
      assert Walk(edges, p);
    }
  }

  /** A walk along staged supports that comes back to where it was is what `Cyclic` finds. */
  lemma {:induction false} WalkIsFound(stage: Stage, snapshot: Snapshot, p: seq<Id>, seen: set<Id>)
    requires IdsDistinct(stage) && |p| >= 1 && Walk(StagedSupports(stage.memories), p)
    requires forall i | 0 <= i < |p| :: p[i] in StagedMemories(stage) && p[i] !in snapshot.memories
    requires p[|p| - 1] in seen || p[|p| - 1] in p[..|p| - 1]
    ensures Cyclic(stage, snapshot, p[0], seen)
  {
    if p[0] !in seen {
      assert |p| >= 2;
      var m := Lookup(stage, snapshot, p[0]).value;
      assert (p[0], p[1]) in StagedSupports(stage.memories);
      var other :| other in stage.memories && other.id == p[0] && p[1] in Supports(other);
      SameStaged(stage, m, other);
      var rest := p[1..];
      forall i | 0 <= i < |rest| - 1 ensures (rest[i], rest[i + 1]) in StagedSupports(stage.memories) {
        assert (p[i + 1], p[i + 2]) in StagedSupports(stage.memories);
      }
      if rest[|rest| - 1] !in seen + {p[0]} {
        var i :| 0 <= i < |p| - 1 && p[i] == p[|p| - 1];
        assert rest[i - 1] == p[i] && rest[i - 1] in rest[..|rest| - 1];
      }
      WalkIsFound(stage, snapshot, rest, seen + {p[0]});
      assert p[1] in Supports(m) && Cyclic(stage, snapshot, p[1], seen + {p[0]});
    }
  }

  /** From a stored memory a walk stays among the stored ones. */
  lemma {:induction false} StoredWalk(g: Graph, stage: Stage, p: seq<Id>)
    requires SupportsExact(g) && ReferencesKept(g) && g.memories.Keys !! StagedMemories(stage)
    requires |p| >= 1 && p[0] in g.memories && Walk(g.supports + StagedSupports(stage.memories), p)
    ensures Walk(g.supports, p) && forall i | 0 <= i < |p| :: p[i] in g.memories
  {
    if |p| >= 2 {
      assert (p[0], p[1]) in g.supports + StagedSupports(stage.memories);
      assert (p[0], p[1]) in g.supports;
      assert p[1] in Supports(g.memories[p[0]]);
      var rest := p[1..];
      forall i | 0 <= i < |rest| - 1 ensures (rest[i], rest[i + 1]) in g.supports + StagedSupports(stage.memories) {
        assert (p[i + 1], p[i + 2]) in g.supports + StagedSupports(stage.memories);
      }
      StoredWalk(g, stage, rest);
      forall i | 0 <= i < |p| - 1 ensures (p[i], p[i + 1]) in g.supports {
        if i > 0 { assert (rest[i - 1], rest[i]) in g.supports; }
      }
      forall i | 0 <= i < |p| ensures p[i] in g.memories {
        if i > 0 { assert rest[i - 1] in g.memories; }
      }
    }
  }

  /** The stage check on supports keeps the whole graph of inferences free of cycles. */
  lemma AcyclicKept(g: Graph, stage: Stage, snapshot: Snapshot)
    requires SupportsExact(g) && ReferencesKept(g) && Acyclic(g.supports) && g.memories.Keys !! StagedMemories(stage)
    requires snapshot.memories == g.memories && IdsDistinct(stage)
    requires forall m | m in stage.memories :: !Cyclic(stage, snapshot, m.id, {})
    ensures Acyclic(g.supports + StagedSupports(stage.memories))
  {
    var edges := g.supports + StagedSupports(stage.memories);
    forall p: seq<Id> | |p| >= 2 && Walk(edges, p) ensures p[0] != p[|p| - 1] {
      if p[0] == p[|p| - 1] {
        if p[0] in g.memories {
          StoredWalk(g, stage, p);
          assert false;
        }
        forall i | 0 <= i < |p| ensures p[i] !in g.memories {
          if p[i] in g.memories { StoredTail(g, stage, p, i); }
        }
        forall i | 0 <= i < |p| - 1 ensures (p[i], p[i + 1]) in StagedSupports(stage.memories) && p[i] in StagedMemories(stage) {
          assert (p[i], p[i + 1]) in edges;
        }
        WalkIsFound(stage, snapshot, p, {});
      }
    }
  }

  lemma StoredTail(g: Graph, stage: Stage, p: seq<Id>, i: nat)
    requires SupportsExact(g) && ReferencesKept(g) && g.memories.Keys !! StagedMemories(stage)
    requires i < |p| && p[i] in g.memories && Walk(g.supports + StagedSupports(stage.memories), p)
    ensures p[|p| - 1] in g.memories
  {
    var rest := p[i..];
    forall j | 0 <= j < |rest| - 1 ensures (rest[j], rest[j + 1]) in g.supports + StagedSupports(stage.memories) {
      assert (p[i + j], p[i + j + 1]) in g.supports + StagedSupports(stage.memories);
    }
    StoredWalk(g, stage, rest);
    assert rest[|rest| - 1] == p[|p| - 1];
  }

  // ---- a published source is cited in one revision ----

  /** Whether a record is part of what current reads see: an active memory or assertion, a chunk. */
  predicate Current(g: Graph, kind: Kind, id: Id) {
    match kind
    case MemoryKind => id in g.memories && Active(g.memories[id])
    case ChunkKind => id in g.chunks
    case EntityKind => false
    case AssertionKind => id in g.assertions && ActiveAssertion(g.assertions[id])
  }

  lemma UnstrippedMemory(g: Graph, stage: Stage, source: Ref, now: Time, after: Graph, id: Id, ref: Ref)
    requires RowsExact(g) && Replaces(g, stage, source, now, after)
    requires id in g.memories && Active(after.memories[id]) && Stale(source, ref) && ref in Refs(g.memories[id].provenance)
    ensures StrippedBy(g, stage, source, now, id)
  {
    assert MemoryAfter(g, stage, source, now, id, after.memories[id]);
    RetiredInTwoRounds(g, stage, source, now, id);
    assert Cites(g, MemoryKind, id, ref);
    assert Row(MemoryKind, id, ref) in g.recordSources;
    var replaced := RetireIn(g.memories, Replaced(g, stage, source), now);
    assert Active(replaced[id]);
  }

  /** After a source publishes a revision, current records that cite the source cite that revision. */
  lemma OneRevisionCited(g: Graph, stage: Stage, source: Ref, now: Time, after: Graph, kind: Kind, id: Id, ref: Ref)
    requires RowsExact(g) && Replaces(g, stage, source, now, after) && !CitesEarlier(stage, source)
    requires forall c | c in stage.corroborations :: Refs(c.provenance) <= {source}
    requires Current(after, kind, id) && Cites(after, kind, id, ref) && ref.id == source.id
    ensures ref == source
  {
    var s :| s in Provenance(after, kind, id) && s.source == ref;
    if kind.MemoryKind? {
      if id in g.memories {
        assert MemoryAfter(g, stage, source, now, id, after.memories[id]);
        if Stale(source, ref) && ref in Refs(g.memories[id].provenance) {
          UnstrippedMemory(g, stage, source, now, after, id, ref);
        }
      } else {
        var m :| m in stage.memories && m.id == id;
        assert s in m.provenance;
      }
    } else if kind.AssertionKind? {
      if id !in g.assertions {
        var a :| a in stage.assertions && a.id == id;
        assert s in a.provenance;
      }
    } else {
      assert id in StagedChunks(stage);
      assert after.chunks[id] in stage.chunks;
    }
  }

  // ---- reads of the past are stable ----

  predicate KnownAt(from: Time, to: Option<Time>, t: Time) {
    from <= t && (to.Some? ==> t < to.value)
  }

  function MemoriesKnownAt(g: Graph, t: Time): set<Id> {
    set id | id in g.memories && KnownAt(g.memories[id].knownFrom, g.memories[id].knownTo, t)
  }

  function AssertionsKnownAt(g: Graph, t: Time): set<Id> {
    set id | id in g.assertions && KnownAt(g.assertions[id].knownFrom, g.assertions[id].knownTo, t)
  }

  /** The record's end as it was, or set to `now` where it had none. */
  predicate EndedSince(was: Option<Time>, to: Option<Time>, now: Time) {
    to == was || (was.None? && to == Some(now))
  }

  /** The memory is the same but for its evidence and its end: it may lose stale spans, gain restating ones and retire now. */
  predicate SameMemory(was: Memory, m: Memory, now: Time) {
    m == was.(provenance := m.provenance, mentions := m.mentions, knownTo := m.knownTo) && EndedSince(was.knownTo, m.knownTo, now)
  }

  predicate SameAssertion(was: Assertion, a: Assertion, now: Time) {
    a == was.(knownTo := a.knownTo) && EndedSince(was.knownTo, a.knownTo, now)
  }

  /** What `t` knew is known still, each record with the content it had. */
  predicate PastKept(g: Graph, after: Graph, t: Time, now: Time) {
    && MemoriesKnownAt(after, t) == MemoriesKnownAt(g, t)
    && AssertionsKnownAt(after, t) == AssertionsKnownAt(g, t)
    && (forall id | id in MemoriesKnownAt(g, t) :: SameMemory(g.memories[id], after.memories[id], now))
    && (forall id | id in AssertionsKnownAt(g, t) :: SameAssertion(g.assertions[id], after.assertions[id], now))
  }

  /**
   * A publication makes nothing known or unknown at an earlier time, and of what was known then it changes no content:
   * only which spans and revisions support a memory.
   */
  lemma PastIsStable(g: Graph, stage: Stage, source: Ref, now: Time, after: Graph, t: Time)
    requires Replaces(g, stage, source, now, after) && t < now
    ensures PastKept(g, after, t, now)
  {
    forall id ensures id in MemoriesKnownAt(after, t) <==> id in MemoriesKnownAt(g, t) {
      if id in g.memories {
        assert MemoryAfter(g, stage, source, now, id, after.memories[id]);
      } else if id in StagedMemories(stage) {
        var m :| m in stage.memories && m.id == id;
        assert after.memories[id] == StoredMemory(m, now);
      }
    }
    forall id ensures id in AssertionsKnownAt(after, t) <==> id in AssertionsKnownAt(g, t) {
      if id !in g.assertions && id in StagedAssertions(stage) {
        var a :| a in stage.assertions && a.id == id;
        assert after.assertions[id] == StoredAssertion(a, now);
      }
    }
  }
}
