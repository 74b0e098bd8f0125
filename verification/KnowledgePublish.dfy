/** What publishing an extraction does to the graph. */
module KnowledgePublish {
  import opened Prelude
  import opened Closure
  import opened KnowledgeModel
  import opened KnowledgeTables
  import opened KnowledgeGraph

  /** What `publish` has established when it starts to replace the source's records. */
  predicate Admitted(g: Graph, stage: Stage, live: map<Ref, Source>, source: Ref, now: Time) {
    && Refusal(stage, Snapshot(stage.expectedVersion, g.memories, g.entities, g.assertions), live).None?
    && !CitesEarlier(stage, source)
    && (forall c | c in stage.corroborations :: c.mention == source)
    && IdentitiesFree(g, stage, source)
    && EntitiesAgree(g.entities, stage)
    && CorroborationsHold(PublishedMemories(Prepared(g, stage, source), stage, source, now), stage.corroborations)
  }

  function After(g: Graph, stage: Stage, source: Ref, now: Time): Graph
    requires CorroborationsHold(PublishedMemories(Prepared(g, stage, source), stage, source, now), stage.corroborations)
  {
    PublishedGraph(Prepared(g, stage, source), source, stage, now)
  }

  /** In a sound graph nothing of an absent record is left to remove. */
  lemma PreparedAddsOwners(g: Graph, stage: Stage, source: Ref)
    requires GraphInv(g) && IdentitiesFree(g, stage, source)
    ensures Prepared(g, stage, source) == g.(identities := Prepared(g, stage, source).identities)
  {
    forall r | r in g.recordSources ensures Key(r.kind, r.id) !in StagedKeys(stage) {
      assert Cites(g, r.kind, r.id, r.source);
      assert Present(g, r.kind, r.id);
    }
    forall e | e in g.supports ensures e.0 !in StagedMemories(stage) {
      assert (e.0, e.1) in g.supports;
      assert Present(g, MemoryKind, e.0);
      assert e.0 in StagedMemories(stage) ==> Key(MemoryKind, e.0) in StagedKeys(stage);
    }
    assert Prepared(g, stage, source).recordSources == g.recordSources;
    assert Prepared(g, stage, source).supports == g.supports;
  }

  /** The memories stripping leaves nothing of. */
  function EmptiedBy(g: Graph, stage: Stage, source: Ref, now: Time): set<Id> {
    Emptied(RetireIn(g.memories, Replaced(g, stage, source), now), g.recordSources, source)
  }

  /**
   * The memories a publication retires: the source's own, the explicitly retired, those stripping empties,
   * and everything inferred from any of them.
   */
  function RetiredBy(g: Graph, stage: Stage, source: Ref, now: Time): set<Id> {
    Reach(Inferences(g.supports), Owned(g.identities, MemoryKind, source.id) + (set id | id in stage.retireMemories) + EmptiedBy(g, stage, source, now))
  }

  /** Whether a memory keeps only part of its provenance. */
  predicate StrippedBy(g: Graph, stage: Stage, source: Ref, now: Time, id: Id) {
    id in StaleMemories(RetireIn(g.memories, Replaced(g, stage, source), now), g.recordSources, source)
    && id !in EmptiedBy(g, stage, source, now)
  }

  lemma StripMeans(m: Memory, source: Ref)
    ensures Strip(m, source).Some? ==>
      var kept := Strip(m, source).value;
      && kept == m.(provenance := kept.provenance, mentions := kept.mentions)
      && kept.provenance != []
      && forall s :: s in kept.provenance <==> s in m.provenance && !Stale(source, s.source)
  {
  }

  /** Two closures in turn retire what one closure from all the seeds would. */
  lemma RetiredInTwoRounds(g: Graph, stage: Stage, source: Ref, now: Time, id: Id)
    ensures var emptied := EmptiedBy(g, stage, source, now);
      && (id in RetiredBy(g, stage, source, now) <==>
           id in Replaced(g, stage, source)
           || (emptied != {} && id in Reach(Inferences(g.supports), Owned(g.identities, MemoryKind, source.id) + emptied)))
      && (id in emptied ==> id in Reach(Inferences(g.supports), Owned(g.identities, MemoryKind, source.id) + emptied))
  {
    var edges := Inferences(g.supports);
    var owned := Owned(g.identities, MemoryKind, source.id);
    var explicit := set id | id in stage.retireMemories;
    var emptied := EmptiedBy(g, stage, source, now);
    ReachUnion(edges, owned + explicit, owned + emptied);
    assert owned + explicit + (owned + emptied) == owned + explicit + emptied;
    if emptied == {} {
      assert owned + explicit + emptied == owned + explicit;
    }
  }

  /** A stored memory, as it was or with a part of its provenance, retired now or not. */
  predicate Revision(was: Memory, m: Memory, now: Time) {
    && m == was.(provenance := m.provenance, mentions := m.mentions, knownTo := m.knownTo)
    && (!Active(was) ==> m == was)
    && (Active(was) && !Active(m) ==> m.knownTo == Some(now))
    && (was.provenance != [] ==> m.provenance != [])
  }

  /** A publication retires exactly the active memories of `RetiredBy`. */
  lemma SurvivorsMeaning(g: Graph, stage: Stage, source: Ref, now: Time, id: Id)
    requires id in g.memories
    ensures var m, was := Survivors(g, stage, source, now)[id], g.memories[id];
      && (Active(m) <==> Active(was) && id !in RetiredBy(g, stage, source, now))
      && Revision(was, m, now)
      && (StrippedBy(g, stage, source, now, id) ==> forall s :: s in m.provenance <==> s in was.provenance && !Stale(source, s.source))
      && (!StrippedBy(g, stage, source, now, id) ==> m.provenance == was.provenance)
  {
    RetiredInTwoRounds(g, stage, source, now, id);
    var replaced := RetireIn(g.memories, Replaced(g, stage, source), now);
    var stripped := StripIn(replaced, g.recordSources, source, now);
    var stale := StaleMemories(replaced, g.recordSources, source);
    StripMeans(replaced[id], source);
    assert id in stale ==> Active(replaced[id]);
    assert Revision(g.memories[id], replaced[id], now) && replaced[id].provenance == g.memories[id].provenance;
    assert Revision(g.memories[id], stripped[id], now);
    assert Active(stripped[id]) <==> Active(replaced[id]) && id !in EmptiedBy(g, stage, source, now);
  }

  /** What the corroborations add to one memory. */
  lemma {:induction false} CorroborateAllMeaning(memories: map<Id, Memory>, cs: seq<Corroboration>, id: Id)
    requires id in memories && forall c | c in cs :: c.memory in memories
    ensures var m, was := CorroborateAll(memories, cs)[id], memories[id];
      && m == was.(provenance := m.provenance, mentions := m.mentions)
      && (was.provenance != [] ==> m.provenance != [])
      && ((forall c | c in cs :: c.memory != id) ==> m == was)
      && forall ref :: ref in Refs(m.provenance) <==>
           ref in Refs(was.provenance) || exists c | c in cs :: c.memory == id && ref in Refs(c.provenance)
  {
    if cs != [] {
      var init, last := cs[..|cs| - 1], cs[|cs| - 1];
      assert cs == init + [last];
      CorroborateAllMeaning(memories, init, id);
      var m := CorroborateAll(memories, init)[id];
      if last.memory == id {
        forall ref ensures ref in Refs(Corroborate(m, last).provenance) <==> ref in Refs(m.provenance) || ref in Refs(last.provenance) {
          CorroborateRefs(m, last, ref);
        }
        if m.provenance != [] { assert m.provenance[0] in Corroborate(m, last).provenance; }
      }
    }
  }

  lemma CorroborateRefs(m: Memory, c: Corroboration, ref: Ref)
    ensures ref in Refs(Corroborate(m, c).provenance) <==> ref in Refs(m.provenance) || ref in Refs(c.provenance)
  {
    DistinctRefs(m.provenance + c.provenance, ref);
    if ref in Refs(m.provenance) {
      var s :| s in m.provenance && s.source == ref;
      assert s in m.provenance + c.provenance;
    }
    if ref in Refs(c.provenance) {
      var s :| s in c.provenance && s.source == ref;
      assert s in m.provenance + c.provenance;
    }
  }

  lemma DistinctRefs(spans: seq<Span>, ref: Ref)
    ensures ref in Refs(Distinct(spans)) <==> ref in Refs(spans)
  {
  }

  // ---- the published graph, record by record ----

  lemma StagedMemory(stage: Stage, now: Time, m: Memory)
    requires IdsDistinct(stage) && m in stage.memories
    ensures StoredMemories(stage.memories, now)[m.id] == StoredMemory(m, now)
  {
    var staged := Keyed(stage.memories, (m: Memory) => m.id);
    var i :| 0 <= i < |stage.memories| && stage.memories[i] == m;
    var j :| 0 <= j < |stage.memories| && stage.memories[j] == staged[m.id];
    assert i == j;
  }

  lemma StagedAssertion(stage: Stage, now: Time, a: Assertion)
    requires IdsDistinct(stage) && a in stage.assertions
    ensures StoredAssertions(stage.assertions, now)[a.id] == StoredAssertion(a, now)
  {
    var staged := Keyed(stage.assertions, (a: Assertion) => a.id);
    var i :| 0 <= i < |stage.assertions| && stage.assertions[i] == a;
    var j :| 0 <= j < |stage.assertions| && stage.assertions[j] == staged[a.id];
    assert i == j;
  }

  /** A staged identity holds no memory yet, and nothing is inferred from it. */
  lemma StagedIdle(g: Graph, stage: Stage, source: Ref, id: Id)
    requires GraphInv(g) && IdentitiesFree(g, stage, source) && id in StagedMemories(stage)
    ensures id !in g.memories
    ensures forall e | e in Inferences(g.supports) :: e.0 != id
  {
    assert Key(MemoryKind, id) in StagedKeys(stage);
    assert !Present(g, MemoryKind, id);
    forall e | e in Inferences(g.supports) ensures e.0 != id {
      assert (e.1, e.0) in g.supports;
      assert e.0 in Supports(g.memories[e.1]);
    }
  }

  lemma OwnedPrepared(g: Graph, stage: Stage, source: Ref)
    requires IdentitiesFree(g, stage, source)
    ensures Owned(Prepared(g, stage, source).identities, MemoryKind, source.id) == Owned(g.identities, MemoryKind, source.id) + StagedMemories(stage)
  {
    var p := Prepared(g, stage, source);
    forall id ensures id in Owned(p.identities, MemoryKind, source.id) <==> id in Owned(g.identities, MemoryKind, source.id) || id in StagedMemories(stage) {
      var k := Key(MemoryKind, id);
      assert id in Owned(p.identities, MemoryKind, source.id) <==> k in p.identities && p.identities[k].id == source.id;
      assert id in Owned(g.identities, MemoryKind, source.id) <==> k in g.identities && g.identities[k].id == source.id;
      assert k in StagedKeys(stage) <==> id in StagedMemories(stage);
    }
  }

  /** The staged identities own no stored memory and support none, so taking them first retires nothing more. */
  lemma PreparedReplaces(g: Graph, stage: Stage, source: Ref, more: set<Id>)
    requires GraphInv(g) && IdentitiesFree(g, stage, source)
    ensures var p := Prepared(g, stage, source);
      Reach(Inferences(p.supports), Owned(p.identities, MemoryKind, source.id) + more)
        == Reach(Inferences(g.supports), Owned(g.identities, MemoryKind, source.id) + more) + StagedMemories(stage)
  {
    var p := Prepared(g, stage, source);
    var staged := StagedMemories(stage);
    var owned := Owned(g.identities, MemoryKind, source.id);
    PreparedAddsOwners(g, stage, source);
    assert Inferences(p.supports) == Inferences(g.supports);
    OwnedPrepared(g, stage, source);
    assert owned + staged + more == owned + more + staged;
    forall e | e in Inferences(g.supports) ensures e.0 !in staged {
      if e.0 in staged { StagedIdle(g, stage, source, e.0); }
    }
    ReachIdle(Inferences(g.supports), owned + more, staged);
  }

  lemma PreparedReplacedMemories(g: Graph, stage: Stage, source: Ref, now: Time)
    requires GraphInv(g) && IdentitiesFree(g, stage, source)
    ensures RetireIn(Prepared(g, stage, source).memories, Replaced(Prepared(g, stage, source), stage, source), now)
              == RetireIn(g.memories, Replaced(g, stage, source), now)
  {
    PreparedReplaces(g, stage, source, set id | id in stage.retireMemories);
    forall id | id in StagedMemories(stage) ensures id !in g.memories { StagedIdle(g, stage, source, id); }
    RetireAbsent(g.memories, Replaced(g, stage, source), StagedMemories(stage), now);
  }

  lemma RetireAbsent(memories: map<Id, Memory>, ids: set<Id>, absent: set<Id>, now: Time)
    requires memories.Keys !! absent
    ensures RetireIn(memories, ids + absent, now) == RetireIn(memories, ids, now)
  {
  }

  lemma PreparedStrips(g: Graph, stage: Stage, source: Ref, now: Time)
    requires GraphInv(g) && IdentitiesFree(g, stage, source)
    ensures EmptiedBy(Prepared(g, stage, source), stage, source, now) == EmptiedBy(g, stage, source, now)
    ensures forall id :: StrippedBy(Prepared(g, stage, source), stage, source, now, id) <==> StrippedBy(g, stage, source, now, id)
  {
    PreparedAddsOwners(g, stage, source);
    PreparedReplacedMemories(g, stage, source, now);
  }

  lemma PreparedRetires(g: Graph, stage: Stage, source: Ref, now: Time)
    requires GraphInv(g) && IdentitiesFree(g, stage, source)
    ensures RetiredBy(Prepared(g, stage, source), stage, source, now) == RetiredBy(g, stage, source, now) + StagedMemories(stage)
  {
    var p := Prepared(g, stage, source);
    var more := (set id | id in stage.retireMemories) + EmptiedBy(g, stage, source, now);
    PreparedStrips(g, stage, source, now);
    PreparedReplaces(g, stage, source, more);
    SeedsOf(p, stage, source, now);
    SeedsOf(g, stage, source, now);
  }

  lemma SeedsOf(g: Graph, stage: Stage, source: Ref, now: Time)
    ensures RetiredBy(g, stage, source, now)
              == Reach(Inferences(g.supports), Owned(g.identities, MemoryKind, source.id) + ((set id | id in stage.retireMemories) + EmptiedBy(g, stage, source, now)))
  {
    var owned, explicit, emptied := Owned(g.identities, MemoryKind, source.id), (set id | id in stage.retireMemories), EmptiedBy(g, stage, source, now);
    assert owned + explicit + emptied == owned + (explicit + emptied);
  }

  /** How a publication may leave a stored memory. */
  ghost predicate MemoryAfter(g: Graph, stage: Stage, source: Ref, now: Time, id: Id, m: Memory)
    requires id in g.memories
  {
    var was := g.memories[id];
    && (Active(m) <==> Active(was) && id !in RetiredBy(g, stage, source, now))
    && (!Active(was) ==> m.knownTo == was.knownTo)
    && (Active(was) && !Active(m) ==> m.knownTo == Some(now))
    && m == was.(provenance := m.provenance, mentions := m.mentions, knownTo := m.knownTo)
    && m.provenance != []
    && forall ref :: ref in Refs(m.provenance) <==>
         || (ref in Refs(was.provenance) && !(StrippedBy(g, stage, source, now, id) && Stale(source, ref)))
         || exists c | c in stage.corroborations :: c.memory == id && ref in Refs(c.provenance)
  }

  lemma SurvivorRefs(g: Graph, stage: Stage, source: Ref, now: Time, id: Id, ref: Ref)
    requires id in g.memories
    ensures ref in Refs(Survivors(g, stage, source, now)[id].provenance) <==>
              ref in Refs(g.memories[id].provenance) && !(StrippedBy(g, stage, source, now, id) && Stale(source, ref))
  {
    SurvivorsMeaning(g, stage, source, now, id);
  }

  lemma StoredMemoryAfter(g: Graph, stage: Stage, source: Ref, now: Time, id: Id)
    requires GraphInv(g) && IdentitiesFree(g, stage, source) && id in g.memories
    requires CorroborationsHold(PublishedMemories(Prepared(g, stage, source), stage, source, now), stage.corroborations)
    ensures id in After(g, stage, source, now).memories
    ensures MemoryAfter(g, stage, source, now, id, After(g, stage, source, now).memories[id])
  {
    var p := Prepared(g, stage, source);
    PreparedAddsOwners(g, stage, source);
    assert Present(g, MemoryKind, id) && Provenance(g, MemoryKind, id) != [];
    if id in StagedMemories(stage) { StagedIdle(g, stage, source, id); }
    PreparedRetires(g, stage, source, now);
    PreparedStrips(g, stage, source, now);
    SurvivorsMeaning(p, stage, source, now, id);
    forall ref { SurvivorRefs(p, stage, source, now, id, ref); }
    var published := PublishedMemories(p, stage, source, now);
    assert published[id] == Survivors(p, stage, source, now)[id];
    CorroborateAllMeaning(published, stage.corroborations, id);
  }

  /** Corroborations restate stored memories only. */
  predicate CorroboratesStored(stage: Stage) {
    forall c | c in stage.corroborations :: c.memory !in StagedMemories(stage)
  }

  lemma StagedMemoryAfter(g: Graph, stage: Stage, source: Ref, now: Time, m: Memory)
    requires GraphInv(g) && IdentitiesFree(g, stage, source) && IdsDistinct(stage) && CorroboratesStored(stage) && m in stage.memories
    requires CorroborationsHold(PublishedMemories(Prepared(g, stage, source), stage, source, now), stage.corroborations)
    ensures m.id in After(g, stage, source, now).memories
    ensures After(g, stage, source, now).memories[m.id] == StoredMemory(m, now)
    ensures m.id !in g.memories
  {
    StagedIdle(g, stage, source, m.id);
    StagedMemory(stage, now, m);
    var published := PublishedMemories(Prepared(g, stage, source), stage, source, now);
    CorroborateAllMeaning(published, stage.corroborations, m.id);
  }

  // ---- a publication by what it does to each table ----

  /** What a publication needs of its stage; every admitted stage has it (`AdmittedPublishable`). */
  predicate Publishable(g: Graph, stage: Stage, source: Ref, now: Time) {
    var snapshot := Snapshot(stage.expectedVersion, g.memories, g.entities, g.assertions);
    && IdentitiesFree(g, stage, source)
    && IdsDistinct(stage)
    && CorroboratesStored(stage)
    && ProvenanceGiven(stage)
    && EntitiesKnown(stage, snapshot)
    && SupportsKnown(stage, snapshot)
    && CorroborationsHold(PublishedMemories(Prepared(g, stage, source), stage, source, now), stage.corroborations)
  }

  lemma AdmittedPublishable(g: Graph, stage: Stage, live: map<Ref, Source>, source: Ref, now: Time)
    requires Admitted(g, stage, live, source, now)
    ensures Publishable(g, stage, source, now) && SpansGood(stage, live)
    ensures RetiredPresent(stage, Snapshot(stage.expectedVersion, g.memories, g.entities, g.assertions))
    ensures forall c | c in stage.corroborations :: Refs(c.provenance) <= {source}
  {
  }

  /** Stored memories are retired, stripped or restated; staged ones are stored as they are, known from now on. */
  ghost predicate MemoriesReplaced(g: Graph, stage: Stage, source: Ref, now: Time, after: Graph) {
    && after.memories.Keys == g.memories.Keys + StagedMemories(stage)
    && g.memories.Keys !! StagedMemories(stage)
    && (forall id | id in g.memories :: MemoryAfter(g, stage, source, now, id, after.memories[id]))
    && (forall m | m in stage.memories :: after.memories[m.id] == StoredMemory(m, now))
    && (forall c | c in stage.corroborations :: c.memory in g.memories && c.memory !in RetiredBy(g, stage, source, now))
  }

  /** An assertion closes when its source is published again or the stage retires it. */
  ghost predicate AssertionsReplaced(g: Graph, stage: Stage, source: Ref, now: Time, after: Graph) {
    && after.assertions.Keys == g.assertions.Keys + StagedAssertions(stage)
    && g.assertions.Keys !! StagedAssertions(stage)
    && (forall id | id in g.assertions :: after.assertions[id] ==
          if ActiveAssertion(g.assertions[id])
             && (id in stage.retireAssertions || source.id in Sources(g.assertions[id].provenance))
          then g.assertions[id].(knownTo := Some(now)) else g.assertions[id])
    && (forall a | a in stage.assertions :: after.assertions[a.id] == StoredAssertion(a, now))
  }

  ghost predicate EntitiesReplaced(g: Graph, stage: Stage, after: Graph) {
    && after.entities.Keys == g.entities.Keys + StagedEntities(stage)
    && (forall id | id in g.entities && id !in StagedEntities(stage) :: after.entities[id] == g.entities[id])
    && (forall e | e in stage.entities :: after.entities[e.id] == MergeEntity(g.entities, e))
  }

  ghost predicate ChunksReplaced(g: Graph, stage: Stage, source: Ref, after: Graph) {
    && (forall id: Id :: id in after.chunks <==> (id in g.chunks && g.chunks[id].provenance.source.id != source.id) || id in StagedChunks(stage))
    && g.chunks.Keys !! StagedChunks(stage)
    && (forall id | id in g.chunks && id in after.chunks :: after.chunks[id] == g.chunks[id])
    && (forall id | id in after.chunks && id !in g.chunks :: after.chunks[id] in stage.chunks && after.chunks[id].id == id)
  }

  predicate RowStays(g: Graph, stage: Stage, source: Ref, now: Time, r: Row) {
    && r in g.recordSources
    && !(r.kind.MemoryKind? && StrippedBy(g, stage, source, now, r.id) && Stale(source, r.source))
    && !(r.kind.EntityKind? && r.id in StagedEntities(stage))
  }

  predicate RowComes(stage: Stage, after: Graph, r: Row) {
    || (r.kind.EntityKind? && r.id in StagedEntities(stage) && r.id in after.entities && r.source in Refs(after.entities[r.id].provenance))
    || (r.kind.MemoryKind? && exists m | m in stage.memories :: m.id == r.id && r.source in Refs(m.provenance))
    || (r.kind.AssertionKind? && exists a | a in stage.assertions :: a.id == r.id && r.source in Refs(a.provenance))
    || (r.kind.MemoryKind? && exists c | c in stage.corroborations :: c.memory == r.id && r.source in Refs(c.provenance))
  }

  ghost predicate RowsReplaced(g: Graph, stage: Stage, source: Ref, now: Time, after: Graph) {
    forall r: Row :: r in after.recordSources <==> RowStays(g, stage, source, now, r) || RowComes(stage, after, r)
  }

  ghost predicate TiesReplaced(g: Graph, stage: Stage, source: Ref, after: Graph) {
    && after.supports == g.supports + StagedSupports(stage.memories)
    && (forall k: Key :: k in after.identities <==> k in g.identities || k in StagedKeys(stage))
    && (forall k | k in g.identities :: after.identities[k] == g.identities[k])
    && (forall k | k in StagedKeys(stage) :: after.identities[k] == source)
  }

  /** A publication, table by table, as the store's documentation describes it. */
  ghost predicate Replaces(g: Graph, stage: Stage, source: Ref, now: Time, after: Graph) {
    && MemoriesReplaced(g, stage, source, now, after)
    && AssertionsReplaced(g, stage, source, now, after)
    && EntitiesReplaced(g, stage, after)
    && ChunksReplaced(g, stage, source, after)
    && RowsReplaced(g, stage, source, now, after)
    && TiesReplaced(g, stage, source, after)
  }

  lemma AfterMemories(g: Graph, stage: Stage, source: Ref, now: Time)
    requires GraphInv(g) && Publishable(g, stage, source, now)
    ensures MemoriesReplaced(g, stage, source, now, After(g, stage, source, now))
  {
    forall id | id in StagedMemories(stage) ensures id !in g.memories { StagedIdle(g, stage, source, id); }
    forall id | id in g.memories ensures MemoryAfter(g, stage, source, now, id, After(g, stage, source, now).memories[id]) {
      StoredMemoryAfter(g, stage, source, now, id);
    }
    forall m | m in stage.memories ensures After(g, stage, source, now).memories[m.id] == StoredMemory(m, now) {
      StagedMemoryAfter(g, stage, source, now, m);
    }
    forall c | c in stage.corroborations ensures c.memory in g.memories && c.memory !in RetiredBy(g, stage, source, now) {
      var p := Prepared(g, stage, source);
      assert c.memory in p.memories;
      SurvivorsMeaning(p, stage, source, now, c.memory);
      PreparedRetires(g, stage, source, now);
    }
  }

  /** Rows tell which stored assertions cite the source. */
  lemma RowsCite(g: Graph, id: Id, source: Id)
    requires RowsExact(g) && id in g.assertions
    ensures CitesByRow(g.recordSources, AssertionKind, id, source) <==> source in Sources(g.assertions[id].provenance)
  {
    if source in Sources(g.assertions[id].provenance) {
      var s :| s in g.assertions[id].provenance && s.source.id == source;
      assert Cites(g, AssertionKind, id, s.source);
      assert Row(AssertionKind, id, s.source) in g.recordSources;
    }
    if CitesByRow(g.recordSources, AssertionKind, id, source) {
      var r :| r in g.recordSources && r.kind == AssertionKind && r.id == id && r.source.id == source;
      assert Cites(g, AssertionKind, id, r.source);
    }
  }

  /** A stored assertion closes by rows as it would by provenance. */
  lemma AssertionCloses(g: Graph, p: Graph, stage: Stage, source: Ref, now: Time, id: Id)
    requires RowsExact(g) && id in g.assertions && p.recordSources == g.recordSources && p.assertions == g.assertions
    ensures ClosedAssertions(p, stage, source, now)[id] ==
            if ActiveAssertion(g.assertions[id]) && (id in stage.retireAssertions || source.id in Sources(g.assertions[id].provenance))
            then g.assertions[id].(knownTo := Some(now)) else g.assertions[id]
  {
    RowsCite(g, id, source.id);
    hide RowsExact, CitesByRow, Sources;
  }

  lemma StagedAssertionsNew(g: Graph, stage: Stage, source: Ref)
    requires IdentitiesFree(g, stage, source)
    ensures g.assertions.Keys !! StagedAssertions(stage)
  {
    forall id | id in StagedAssertions(stage) ensures id !in g.assertions {
      assert Key(AssertionKind, id) in StagedKeys(stage);
      assert !Present(g, AssertionKind, id);
    }
  }

  /** Each stored assertion closes or stays, and each staged one is stored. */
  lemma AssertionsClose(g: Graph, p: Graph, stage: Stage, source: Ref, now: Time, after: Graph)
    requires RowsExact(g) && IdentitiesFree(g, stage, source) && IdsDistinct(stage)
    requires p.recordSources == g.recordSources && p.assertions == g.assertions
    requires after.assertions == ClosedAssertions(p, stage, source, now) + StoredAssertions(stage.assertions, now)
    ensures AssertionsReplaced(g, stage, source, now, after)
  {
    hide RowsExact, IdentitiesFree, IdsDistinct, ClosedAssertions, StoredAssertions, StoredAssertion, Sources;
    StagedAssertionsNew(g, stage, source);
    forall id | id in g.assertions { AssertionCloses(g, p, stage, source, now, id); }
    forall a | a in stage.assertions { StagedAssertion(stage, now, a); }
  }

  lemma StagedEntity(entities: map<Id, Entity>, stage: Stage, e: Entity)
    requires IdsDistinct(stage) && e in stage.entities
    ensures MergedEntities(entities, stage.entities)[e.id] == MergeEntity(entities, e)
  {
    var staged := Keyed(stage.entities, (e: Entity) => e.id);
    var i :| 0 <= i < |stage.entities| && stage.entities[i] == e;
    var j :| 0 <= j < |stage.entities| && stage.entities[j] == staged[e.id];
    assert i == j;
  }

  lemma EntitiesMerge(g: Graph, stage: Stage, after: Graph)
    requires IdsDistinct(stage) && after.entities == g.entities + MergedEntities(g.entities, stage.entities)
    ensures EntitiesReplaced(g, stage, after)
  {
    hide IdsDistinct;
    hide MergeEntity;
    forall e | e in stage.entities ensures after.entities[e.id] == MergeEntity(g.entities, e) {
      StagedEntity(g.entities, stage, e);
    }
    hide MergedEntities;
  }

  lemma ChunksSwap(g: Graph, p: Graph, stage: Stage, source: Ref, after: Graph)
    requires IdentitiesFree(g, stage, source) && p.chunks == g.chunks
    requires after.chunks == KeptChunks(p.chunks, source.id) + StoredChunks(stage.chunks)
    ensures ChunksReplaced(g, stage, source, after)
  {
    forall id | id in StagedChunks(stage) ensures id !in g.chunks {
      assert Key(ChunkKind, id) in StagedKeys(stage);
      assert !Present(g, ChunkKind, id);
    }
  }

  lemma TiesGrow(g: Graph, stage: Stage, source: Ref, after: Graph)
    requires IdentitiesFree(g, stage, source)
    requires after.supports == g.supports + StagedSupports(stage.memories) && after.identities == Prepared(g, stage, source).identities
    ensures TiesReplaced(g, stage, source, after)
  {
  }

  lemma StagedRows(stage: Stage, r: Row)
    ensures r in MemoryRows(stage.memories) <==> r.kind.MemoryKind? && exists m | m in stage.memories :: m.id == r.id && r.source in Refs(m.provenance)
    ensures r in AssertionRows(stage.assertions) <==>
              r.kind.AssertionKind? && exists a | a in stage.assertions :: a.id == r.id && r.source in Refs(a.provenance)
    ensures r in CorroborationRows(stage.corroborations) <==>
              r.kind.MemoryKind? && exists c | c in stage.corroborations :: c.memory == r.id && r.source in Refs(c.provenance)
  {
  }

  lemma MergedRows(merged: map<Id, Entity>, r: Row)
    ensures r in EntityRows(merged) <==> r.kind.EntityKind? && r.id in merged && r.source in Refs(merged[r.id].provenance)
  {
  }

  lemma KeptRows(g: Graph, stage: Stage, source: Ref, now: Time, r: Row)
    ensures r in StripRows(RetireIn(g.memories, Replaced(g, stage, source), now), g.recordSources, source) <==>
              r in g.recordSources && !(r.kind.MemoryKind? && StrippedBy(g, stage, source, now, r.id) && Stale(source, r.source))
  {
  }

  lemma RowsSwap(g: Graph, stage: Stage, source: Ref, now: Time, after: Graph, kept: set<Row>)
    requires after.entities == g.entities + MergedEntities(g.entities, stage.entities)
    requires forall r :: r in kept <==> r in g.recordSources && !(r.kind.MemoryKind? && StrippedBy(g, stage, source, now, r.id) && Stale(source, r.source))
    requires after.recordSources ==
      (set r | r in kept && !(r.kind == EntityKind && r.id in MergedEntities(g.entities, stage.entities)))
        + EntityRows(MergedEntities(g.entities, stage.entities)) + MemoryRows(stage.memories) + AssertionRows(stage.assertions) + CorroborationRows(stage.corroborations)
    ensures RowsReplaced(g, stage, source, now, after)
  {
    forall r: Row ensures r in after.recordSources <==> RowStays(g, stage, source, now, r) || RowComes(stage, after, r) {
      StagedRows(stage, r);
      MergedRows(MergedEntities(g.entities, stage.entities), r);
    }
  }

  /** The statements `publish` runs amount to this. */
  lemma PublicationMeaning(g: Graph, stage: Stage, source: Ref, now: Time)
    requires GraphInv(g) && Publishable(g, stage, source, now)
    ensures Replaces(g, stage, source, now, After(g, stage, source, now))
  {
    var p, after := Prepared(g, stage, source), After(g, stage, source, now);
    PreparedAddsOwners(g, stage, source);
    PreparedReplacedMemories(g, stage, source, now);
    AfterMemories(g, stage, source, now);
    AssertionsClose(g, p, stage, source, now, after);
    EntitiesMerge(g, stage, after);
    ChunksSwap(g, p, stage, source, after);
    var kept := StripRows(RetireIn(g.memories, Replaced(g, stage, source), now), g.recordSources, source);
    forall r: Row { KeptRows(g, stage, source, now, r); }
    RowsSwap(g, stage, source, now, after, kept);
    TiesGrow(g, stage, source, after);
  }

  lemma SameStaged(stage: Stage, m: Memory, other: Memory)
    requires IdsDistinct(stage) && m in stage.memories && other in stage.memories && m.id == other.id
    ensures m == other
  {
    var i :| 0 <= i < |stage.memories| && stage.memories[i] == m;
    var j :| 0 <= j < |stage.memories| && stage.memories[j] == other;
    assert i == j;
  }
}
