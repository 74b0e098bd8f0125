/** What ties the derived records to each other and to the sources, and what forgetting a source does to it. */
module KnowledgeGraph {
  import opened Prelude
  import opened Closure
  import opened KnowledgeModel
  import opened KnowledgeTables

  /** The spans a record of the kind cites; none when there is no such record. */
  function Provenance(g: Graph, kind: Kind, id: Id): seq<Span> {
    match kind
    case MemoryKind => if id in g.memories then g.memories[id].provenance else []
    case ChunkKind => if id in g.chunks then [g.chunks[id].provenance] else []
    case EntityKind => if id in g.entities then g.entities[id].provenance else []
    case AssertionKind => if id in g.assertions then g.assertions[id].provenance else []
  }

  predicate Cites(g: Graph, kind: Kind, id: Id, ref: Ref) {
    ref in Refs(Provenance(g, kind, id))
  }

  predicate KeysSound(g: Graph) {
    && (forall id | id in g.memories :: g.memories[id].id == id)
    && (forall id | id in g.chunks :: g.chunks[id].id == id)
    && (forall id | id in g.entities :: g.entities[id].id == id)
    && (forall id | id in g.assertions :: g.assertions[id].id == id)
  }

  ghost predicate ProvenanceKept(g: Graph) {
    forall kind, id | Present(g, kind, id) :: Provenance(g, kind, id) != []
  }

  /** `record_sources` is exactly the source revisions of each stored record's provenance. */
  ghost predicate RowsExact(g: Graph) {
    forall r: Row :: r in g.recordSources <==> !r.kind.ChunkKind? && Cites(g, r.kind, r.id, r.source)
  }

  /** `memory_supports` is exactly the supports of the stored inferred memories. */
  ghost predicate SupportsExact(g: Graph) {
    forall m, s :: (m, s) in g.supports <==> m in g.memories && s in Supports(g.memories[m])
  }

  /** No record names a record that is not there. */
  predicate ReferencesKept(g: Graph) {
    && (forall id | id in g.memories :: forall e | e in g.memories[id].entities :: e in g.entities)
    && (forall id | id in g.memories :: forall s | s in Supports(g.memories[id]) :: s in g.memories)
    && (forall id | id in g.assertions :: forall e | e in Endpoints(g.assertions[id]) :: e in g.entities)
  }

  /** Every memory, chunk and assertion has the source revision that published it on record. */
  ghost predicate OwnersKnown(g: Graph) {
    forall kind: Kind, id | !kind.EntityKind? && Present(g, kind, id) :: Key(kind, id) in g.identities
  }

  ghost predicate GraphInv(g: Graph) {
    KeysSound(g) && ProvenanceKept(g) && RowsExact(g) && SupportsExact(g) && ReferencesKept(g) && OwnersKnown(g)
  }

  // ---- what rests on a set of sources ----

  /** Whether one of the sources proves the record: it cites the source or was published by it. */
  predicate Touched(g: Graph, kind: Kind, id: Id, sources: set<Id>) {
    exists p | p in Proofs(g) :: p.kind == kind && p.id == id && p.source in sources
  }

  /** Every record has something that proves it. */
  lemma ProofExists(g: Graph, kind: Kind, id: Id) returns (p: Proof)
    requires ProvenanceKept(g) && RowsExact(g) && Present(g, kind, id)
    ensures p in Proofs(g) && p.kind == kind && p.id == id
  {
    var s := Provenance(g, kind, id)[0];
    p := Proof(kind, id, s.source.id);
    if kind.ChunkKind? {
      assert p in (set id | id in g.chunks :: Proof(ChunkKind, id, g.chunks[id].provenance.source.id));
    } else {
      assert Cites(g, kind, id, s.source);
      assert Row(kind, id, s.source) in g.recordSources;
    }
  }

  /** A record linked from one that rests on a closed set of sources rests on it too, wholly. */
  lemma LinkedTouched(g: Graph, p: Proof, q: Proof, sources: set<Id>)
    requires Closed(Links(g), sources)
    requires p in Proofs(g) && q in Proofs(g) && Linked(g, p, q) && p.source in sources
    ensures q.source in sources
  {
    assert (p.source, q.source) in Links(g);
  }

  /** What a deletion condition of `forget` says of a record that is there. */
  lemma TouchedMeans(g: Graph, kind: Kind, id: Id, sources: set<Id>)
    requires Present(g, kind, id)
    ensures kind.MemoryKind? || kind.AssertionKind? ==> (Touched(g, kind, id, sources) <==> RestsOn(g, kind, id, sources))
    ensures kind.EntityKind? ==> (Touched(g, kind, id, sources) <==> CitesAny(g, kind, id, sources))
    ensures kind.ChunkKind? ==> (Touched(g, kind, id, sources) <==> ChunkRestsOn(g, id, sources))
  {
    if CitesAny(g, kind, id, sources) && !kind.ChunkKind? {
      var r :| r in g.recordSources && r.kind == kind && r.id == id && r.source.id in sources;
      assert Proof(r.kind, r.id, r.source.id) in Proofs(g);
    }
    if !kind.EntityKind? && Key(kind, id) in g.identities {
      assert Proof(kind, id, g.identities[Key(kind, id)].id) in Proofs(g);
    }
    if kind.ChunkKind? {
      assert Proof(kind, id, g.chunks[id].provenance.source.id) in Proofs(g);
    }
  }

  /** `forget` removes exactly the records its affected sources prove, and leaves the others as they were. */
  lemma PurgedKeeps(g: Graph, sources: set<Id>, kind: Kind, id: Id)
    requires RowsExact(g)
    ensures var after := Purged(g, sources);
      && (Present(after, kind, id) <==> Present(g, kind, id) && !Touched(g, kind, id, sources))
      && (kind.MemoryKind? && id in after.memories ==> after.memories[id] == g.memories[id])
      && (kind.ChunkKind? && id in after.chunks ==> after.chunks[id] == g.chunks[id])
      && (kind.EntityKind? && id in after.entities ==> after.entities[id] == g.entities[id])
      && (kind.AssertionKind? && id in after.assertions ==> after.assertions[id] == g.assertions[id])
  {
    if Present(g, kind, id) { TouchedMeans(g, kind, id, sources); }
  }

  /** A record's sources are all affected, and it goes; or none is, and it stays as it was. */
  lemma AllOrNothing(g: Graph, sources: set<Id>, kind: Kind, id: Id)
    requires ProvenanceKept(g) && RowsExact(g) && Closed(Links(g), sources) && Present(g, kind, id)
    ensures Present(Purged(g, sources), kind, id) <==> (forall p | p in Proofs(g) && p.kind == kind && p.id == id :: p.source !in sources)
    ensures !Present(Purged(g, sources), kind, id) <==> (forall p | p in Proofs(g) && p.kind == kind && p.id == id :: p.source in sources)
  {
    PurgedKeeps(g, sources, kind, id);
    var proof := ProofExists(g, kind, id);
    forall p, q | p in Proofs(g) && q in Proofs(g) && p.kind == q.kind == kind && p.id == q.id == id && p.source in sources
      ensures q.source in sources
    {
      LinkedTouched(g, p, q, sources);
    }
  }

  /** A memory that stays keeps the entities it names and the memories it is inferred from. */
  lemma SurvivingMemory(g: Graph, sources: set<Id>, m: Id)
    requires GraphInv(g) && Closed(Links(g), sources) && m in Purged(g, sources).memories
    ensures forall e | e in g.memories[m].entities :: e in Purged(g, sources).entities
    ensures forall s | s in Supports(g.memories[m]) :: s in Purged(g, sources).memories
  {
    PurgedKeeps(g, sources, MemoryKind, m);
    var q := ProofExists(g, MemoryKind, m);
    forall e | e in g.memories[m].entities ensures e in Purged(g, sources).entities {
      PurgedKeeps(g, sources, EntityKind, e);
      if Touched(g, EntityKind, e, sources) {
        var p :| p in Proofs(g) && p.kind == EntityKind && p.id == e && p.source in sources;
        LinkedTouched(g, p, q, sources);
      }
    }
    forall s | s in Supports(g.memories[m]) ensures s in Purged(g, sources).memories {
      PurgedKeeps(g, sources, MemoryKind, s);
      if Touched(g, MemoryKind, s, sources) {
        var p :| p in Proofs(g) && p.kind == MemoryKind && p.id == s && p.source in sources;
        assert (m, s) in g.supports;
        LinkedTouched(g, p, q, sources);
      }
    }
  }

  /** An assertion that stays keeps its endpoints. */
  lemma SurvivingAssertion(g: Graph, sources: set<Id>, a: Id)
    requires GraphInv(g) && Closed(Links(g), sources) && a in Purged(g, sources).assertions
    ensures forall e | e in Endpoints(g.assertions[a]) :: e in Purged(g, sources).entities
  {
    PurgedKeeps(g, sources, AssertionKind, a);
    var q := ProofExists(g, AssertionKind, a);
    forall e | e in Endpoints(g.assertions[a]) ensures e in Purged(g, sources).entities {
      PurgedKeeps(g, sources, EntityKind, e);
      if Touched(g, EntityKind, e, sources) {
        var p :| p in Proofs(g) && p.kind == EntityKind && p.id == e && p.source in sources;
        LinkedTouched(g, p, q, sources);
      }
    }
  }

  lemma PurgedRows(g: Graph, sources: set<Id>)
    requires RowsExact(g)
    ensures RowsExact(Purged(g, sources))
  {
    var after := Purged(g, sources);
    forall r: Row ensures r in after.recordSources <==> !r.kind.ChunkKind? && Cites(after, r.kind, r.id, r.source) {
      PurgedKeeps(g, sources, r.kind, r.id);
      assert r in g.recordSources <==> !r.kind.ChunkKind? && Cites(g, r.kind, r.id, r.source);
      if Present(g, r.kind, r.id) { TouchedMeans(g, r.kind, r.id, sources); }
    }
  }

  lemma PurgedSupports(g: Graph, sources: set<Id>)
    requires GraphInv(g) && Closed(Links(g), sources)
    ensures SupportsExact(Purged(g, sources))
  {
    var after := Purged(g, sources);
    forall m, s ensures (m, s) in after.supports <==> m in after.memories && s in Supports(after.memories[m]) {
      if m in after.memories { SurvivingMemory(g, sources, m); }
      assert (m, s) in g.supports <==> m in g.memories && s in Supports(g.memories[m]);
    }
  }

  lemma PurgedReferences(g: Graph, sources: set<Id>)
    requires GraphInv(g) && Closed(Links(g), sources)
    ensures ReferencesKept(Purged(g, sources))
  {
    var after := Purged(g, sources);
    forall m | m in after.memories
      ensures after.memories[m] == g.memories[m]
      ensures forall e | e in g.memories[m].entities :: e in after.entities
      ensures forall s | s in Supports(g.memories[m]) :: s in after.memories
    {
      SurvivingMemory(g, sources, m);
    }
    forall a | a in after.assertions ensures forall e | e in Endpoints(after.assertions[a]) :: e in after.entities {
      SurvivingAssertion(g, sources, a);
    }
  }

  /** What forgetting leaves is a sound graph of its own, with nothing of the affected sources in it. */
  lemma PurgedSound(g: Graph, sources: set<Id>)
    requires GraphInv(g) && Closed(Links(g), sources)
    ensures GraphInv(Purged(g, sources))
    ensures forall kind, id, ref: Ref | Cites(Purged(g, sources), kind, id, ref) :: ref.id !in sources
    ensures forall kind: Kind, id | !kind.EntityKind? && Present(Purged(g, sources), kind, id) :: g.identities[Key(kind, id)].id !in sources
  {
    var after := Purged(g, sources);
    forall kind, id ensures Present(after, kind, id) ==> Present(g, kind, id) && Provenance(after, kind, id) == Provenance(g, kind, id) {
      PurgedKeeps(g, sources, kind, id);
    }
    PurgedRows(g, sources);
    PurgedSupports(g, sources);
    PurgedReferences(g, sources);
    forall kind, id, ref: Ref | Cites(after, kind, id, ref) ensures ref.id !in sources {
      PurgedKeeps(g, sources, kind, id);
      TouchedMeans(g, kind, id, sources);
      assert Row(kind, id, ref) in g.recordSources || kind.ChunkKind?;
    }
    forall kind: Kind, id | !kind.EntityKind? && Present(after, kind, id) ensures g.identities[Key(kind, id)].id !in sources {
      PurgedKeeps(g, sources, kind, id);
      TouchedMeans(g, kind, id, sources);
    }
  }
}
