/** A run of eight transactions that leaves an active memory resting on a retired one. */
module KnowledgeExample {
  import opened Prelude
  import opened Closure
  import opened KnowledgeModel
  import opened KnowledgeTables
  import opened KnowledgeGraph
  import opened KnowledgePublish
  import opened KnowledgeLaws
  import opened KnowledgeQueue
  import opened KnowledgeRuns

  /** Two revisions of one source, the same text twice. */
  const FIRST := Ref(0, 1)
  const SECOND := Ref(0, 2)

  function Said(ref: Ref): Source { Source(ref, "a", 0, None, "") }

  function Quoting(ref: Ref): seq<Span> { [Span(ref, 0, 1, "a")] }

  /** The first revision stages a statement, the second an inference from it. */
  const STATED := Memory(1, false, "stated", Quoting(FIRST), [], Stated, 0, None, None)
  const INFERRED := Memory(2, false, "inferred", Quoting(SECOND), [], Inferred([1]), 0, None, None)

  function Staging(version: nat, m: Memory): Stage { Stage(version, [m], [], [], [], [], [], []) }

  const FIRST_STAGE := Staging(0, STATED)
  const SECOND_STAGE := Staging(1, INFERRED)

  const FIRST_LEASE := Lease(7, 4, 10)
  const SECOND_LEASE := Lease(8, 5, 20)

  const OPS := [
    EnqueueOp(EnqueueInput(7, Said(FIRST), "engine", None)),
    ClaimOp(ClaimInput("engine", "worker", 4, 5, 95, None)),
    StageOp(FIRST_LEASE, FIRST_STAGE),
    PublishOp(FIRST_LEASE),
    EnqueueOp(EnqueueInput(8, Said(SECOND), "engine", Some(1))),
    ClaimOp(ClaimInput("engine", "worker", 5, 15, 85, None)),
    StageOp(SECOND_LEASE, SECOND_STAGE),
    PublishOp(SECOND_LEASE)]

  // ---- the states in between ----

  function FirstJob(attempt: nat, phase: Phase, stage: Option<Stage>): Job { Job(7, FIRST, "engine", attempt, phase, stage, 0) }

  function SecondJob(attempt: nat, phase: Phase, stage: Option<Stage>): Job { Job(8, SECOND, "engine", attempt, phase, stage, 1) }

  const HELD := Processing(4, "worker", 100)
  const HELD_AGAIN := Processing(5, "worker", 100)

  function AtFirst(job: Job): Tables {
    Tables(0, map[0 := Head(1, None, None)], map[FIRST := Said(FIRST)], map[7 := job], EMPTY_GRAPH)
  }

  const DONE := FirstJob(1, Complete(10), Some(FIRST_STAGE))

  const GRAPH := Graph(
    map[1 := StoredMemory(STATED, 10)], map[], map[], map[], {Row(MemoryKind, 1, FIRST)}, {}, map[Key(MemoryKind, 1) := FIRST])

  const BETWEEN := Tables(1, map[0 := Head(1, Some(1), None)], map[FIRST := Said(FIRST)], map[7 := DONE], GRAPH)

  function AtSecond(job: Job): Tables {
    Tables(1, map[0 := Head(2, Some(1), None)], map[FIRST := Said(FIRST), SECOND := Said(SECOND)], map[7 := DONE, 8 := job], GRAPH)
  }

  const LAST := AtSecond(SecondJob(1, HELD_AGAIN, Some(SECOND_STAGE)))

  const STATES := [
    EMPTY,
    AtFirst(FirstJob(0, Queued, None)),
    AtFirst(FirstJob(1, HELD, None)),
    AtFirst(FirstJob(1, HELD, Some(FIRST_STAGE))),
    BETWEEN,
    AtSecond(SecondJob(0, Queued, None)),
    AtSecond(SecondJob(1, HELD_AGAIN, None)),
    LAST,
    Step(LAST, OPS[7])]

  // ---- what makes a stage of one memory pass ----

  /** A memory that quotes the live revision `ref` and rests, if on anything, on active memories that rest on none. */
  predicate Plain(t: Tables, m: Memory, ref: Ref) {
    && ref in LiveSources(t) && LiveSources(t)[ref].text == "a"
    && m == Memory(m.id, false, m.text, Quoting(ref), [], m.evidence, 0, None, None)
    && m.id !in t.graph.memories
    && (m.evidence.Inferred? ==> m.evidence.supports != [])
    && forall s | s in Supports(m) ::
         s in t.graph.memories && Active(t.graph.memories[s]) && Supports(t.graph.memories[s]) == []
  }

  lemma PlainFormed(t: Tables, m: Memory, ref: Ref)
    requires Plain(t, m, ref)
    ensures var stage := Staging(t.version, m);
      && SpansGood(stage, LiveSources(t)) && IntervalsGood(stage) && ProvenanceGiven(stage) && MentionsCited(stage)
      && IdsDistinct(stage) && EntitiesKnown(stage, SnapshotOf(t)) && CorroborationsOwn(stage, SnapshotOf(t))
  {
    assert LiveSources(t)[ref].text[0..1] == "a";
    assert GoodSpan(Span(ref, 0, 1, "a"), LiveSources(t));
  }

  lemma PlainSupported(t: Tables, m: Memory, ref: Ref)
    requires Plain(t, m, ref)
    ensures var stage := Staging(t.version, m);
      && SupportsKnown(stage, SnapshotOf(t)) && RoutinesSupported(stage, SnapshotOf(t), LiveSources(t))
      && RetiredPresent(stage, SnapshotOf(t)) && CorroborationsActive(stage, SnapshotOf(t))
      && !Cyclic(stage, SnapshotOf(t), m.id, {})
  {
    hide LiveSources, Quoting;
    var stage, snapshot := Staging(t.version, m), SnapshotOf(t);
    assert Lookup(stage, snapshot, m.id) == Some(m);
    forall s | s in Supports(m) ensures s in Citable(stage, snapshot) && !Cyclic(stage, snapshot, s, {} + {m.id}) {
      assert Lookup(stage, snapshot, s) == Some(t.graph.memories[s]);
    }
  }

  lemma PlainAccepted(t: Tables, m: Memory, ref: Ref)
    requires Plain(t, m, ref)
    ensures StageRefusal(t, Staging(t.version, m)) == None
  {
    hide SpansGood, IntervalsGood, ProvenanceGiven, MentionsCited, IdsDistinct, EntitiesKnown, CorroborationsOwn;
    hide SupportsKnown, RoutinesSupported, Cyclic, RetiredPresent, CorroborationsActive, LiveSources, Plain;
    PlainFormed(t, m, ref);
    PlainSupported(t, m, ref);
  }

  lemma PlainFree(t: Tables, m: Memory, ref: Ref)
    requires Plain(t, m, ref) && Key(MemoryKind, m.id) !in t.graph.identities
    ensures !CitesEarlier(Staging(t.version, m), ref) && IdentitiesFree(t.graph, Staging(t.version, m), ref)
  {
    hide LiveSources;
    assert StagedKeys(Staging(t.version, m)) == {Key(MemoryKind, m.id)};
  }

  /** Staged for its own job under a held lease, such a memory may be published. */
  lemma PlainPublishes(t: Tables, lease: Lease, m: Memory, ref: Ref)
    requires Plain(t, m, ref) && LeaseRefusal(t, lease) == None && Key(MemoryKind, m.id) !in t.graph.identities
    requires t.jobs[lease.jobId].stage == Some(Staging(t.version, m)) && t.jobs[lease.jobId].source == ref
    ensures Publishes(t, lease)
  {
    var stage := Staging(t.version, m);
    PlainAccepted(t, m, ref);
    PlainFree(t, m, ref);
    hide Plain, StageRefusal, LeaseRefusal, CitesEarlier, IdentitiesFree, PublishedMemories;
  }

  // ---- the run ----

  lemma EnqueueAccepts(t: Tables, input: EnqueueInput)
    requires var ref := input.source.ref;
      && !IsTombstoned(t, ref.id) && input.jobId !in t.jobs && ref !in t.sources && Recorded(t, ref, input.engine) == {}
      && input.expectedRevision.GetOr(0) == (if ref.id in t.heads then t.heads[ref.id].accepted else 0) < ref.revision
    ensures Step(t, EnqueueOp(input)) ==
            Accepted(t, input.source, Job(input.jobId, input.source.ref, input.engine, 0, Queued, None, NextOrdinal(t)))
  {
    hide Accepted, Recorded, NextOrdinal;
  }

  /** A claim is handed the only job there is for it. */
  lemma ClaimTakes(t: Tables, claim: ClaimInput, id: Id)
    requires id in t.jobs && forall other | other in t.jobs :: Claimable(t, t.jobs[other], claim) <==> other == id
    ensures Step(t, ClaimOp(claim)) ==
            SaveJob(t, t.jobs[id].(attempt := t.jobs[id].attempt + 1, phase := Processing(claim.token, claim.worker, claim.now + claim.leaseMs)))
  {
    hide Claimable;
    assert NextJob(t, claim) == Some(t.jobs[id]);
    hide NextJob, SaveJob;
  }

  lemma StageSaves(t: Tables, lease: Lease, m: Memory, ref: Ref)
    requires Plain(t, m, ref) && LeaseRefusal(t, lease) == None
    ensures Step(t, StageOp(lease, Staging(t.version, m))) == SaveJob(t, t.jobs[lease.jobId].(stage := Some(Staging(t.version, m))))
  {
    PlainAccepted(t, m, ref);
    hide Plain, StageRefusal, SaveJob;
  }

  lemma FirstPlain(job: Job)
    ensures Plain(AtFirst(job), STATED, FIRST)
  {
  }

  lemma SecondPlain(job: Job)
    ensures Plain(AtSecond(job), INFERRED, SECOND)
  {
  }

  lemma FirstEnqueued()
    ensures Step(EMPTY, OPS[0]) == AtFirst(FirstJob(0, Queued, None))
  {
    assert Recorded(EMPTY, FIRST, "engine") == {};
    EnqueueAccepts(EMPTY, EnqueueInput(7, Said(FIRST), "engine", None));
    hide Step, Recorded;
  }

  lemma FirstClaimed()
    ensures Step(AtFirst(FirstJob(0, Queued, None)), OPS[1]) == AtFirst(FirstJob(1, HELD, None))
  {
    var t, claim := AtFirst(FirstJob(0, Queued, None)), ClaimInput("engine", "worker", 4, 5, 95, None);
    assert forall other | other in t.jobs :: Claimable(t, t.jobs[other], claim) <==> other == 7;
    ClaimTakes(t, claim, 7);
    hide Step, Claimable;
    assert SaveJob(t, FirstJob(1, HELD, None)) == AtFirst(FirstJob(1, HELD, None));
  }

  lemma FirstStaged()
    ensures Step(AtFirst(FirstJob(1, HELD, None)), OPS[2]) == AtFirst(FirstJob(1, HELD, Some(FIRST_STAGE)))
  {
    hide Step, Plain, Staging;
    var t := AtFirst(FirstJob(1, HELD, None));
    FirstPlain(FirstJob(1, HELD, None));
    StageSaves(t, FIRST_LEASE, STATED, FIRST);
    assert SaveJob(t, FirstJob(1, HELD, Some(FIRST_STAGE))) == AtFirst(FirstJob(1, HELD, Some(FIRST_STAGE)));
  }

  lemma FirstPublishes()
    ensures Publishes(AtFirst(FirstJob(1, HELD, Some(FIRST_STAGE))), FIRST_LEASE)
  {
    hide Publishes, Plain, Staging;
    FirstPlain(FirstJob(1, HELD, Some(FIRST_STAGE)));
    PlainPublishes(AtFirst(FirstJob(1, HELD, Some(FIRST_STAGE))), FIRST_LEASE, STATED, FIRST);
  }

  /** From no records, the records of a publication of one stated memory. */
  lemma FirstRecords(after: Graph)
    requires Replaces(EMPTY_GRAPH, FIRST_STAGE, FIRST, 10, after)
    ensures after == GRAPH
  {
    hide MemoriesReplaced, AssertionsReplaced, EntitiesReplaced, ChunksReplaced, RowsReplaced, TiesReplaced;
    FirstRows(after);
    FirstTables(after);
    FirstTies(after);
  }

  lemma FirstTables(after: Graph)
    requires MemoriesReplaced(EMPTY_GRAPH, FIRST_STAGE, FIRST, 10, after) && AssertionsReplaced(EMPTY_GRAPH, FIRST_STAGE, FIRST, 10, after)
    requires EntitiesReplaced(EMPTY_GRAPH, FIRST_STAGE, after) && ChunksReplaced(EMPTY_GRAPH, FIRST_STAGE, FIRST, after)
    ensures after.memories == GRAPH.memories && after.chunks == map[] && after.entities == map[] && after.assertions == map[]
  {
    hide MemoryAfter, RetiredBy, StoredMemory;
    assert STATED in FIRST_STAGE.memories && STATED.id == 1;
    assert StagedMemories(FIRST_STAGE) == {1} && StagedChunks(FIRST_STAGE) == {};
    assert StagedEntities(FIRST_STAGE) == {} && StagedAssertions(FIRST_STAGE) == {};
    assert after.entities.Keys == {} && after.assertions.Keys == {};
  }

  lemma FirstRows(after: Graph)
    requires RowsReplaced(EMPTY_GRAPH, FIRST_STAGE, FIRST, 10, after)
    ensures after.recordSources == {Row(MemoryKind, 1, FIRST)}
  {
    hide StrippedBy;
    assert STATED in FIRST_STAGE.memories && STATED.id == 1 && Refs(STATED.provenance) == {FIRST};
    forall r ensures r in after.recordSources <==> r == Row(MemoryKind, 1, FIRST) {
      assert r in after.recordSources <==> RowStays(EMPTY_GRAPH, FIRST_STAGE, FIRST, 10, r) || RowComes(FIRST_STAGE, after, r);
    }
  }

  lemma FirstTies(after: Graph)
    requires TiesReplaced(EMPTY_GRAPH, FIRST_STAGE, FIRST, after)
    ensures after.supports == {} && after.identities == map[Key(MemoryKind, 1) := FIRST]
  {
    assert StagedKeys(FIRST_STAGE) == {Key(MemoryKind, 1)} by { assert StagedMemories(FIRST_STAGE) == {1}; }
    assert StagedSupports(FIRST_STAGE.memories) == {};
  }

  lemma FirstPublished()
    requires Sound(AtFirst(FirstJob(1, HELD, Some(FIRST_STAGE))))
    ensures Step(AtFirst(FirstJob(1, HELD, Some(FIRST_STAGE))), OPS[3]) == BETWEEN
  {
    hide Publish, Publishes, Replaces, Checked, GraphInv, Anchored, QueueInv, Commit, Staging;
    var t := AtFirst(FirstJob(1, HELD, Some(FIRST_STAGE)));
    var after := Commit(t, Publish(t, FIRST_LEASE));
    FirstPublishes();
    PublishStep(t, FIRST_LEASE);
    PublishesMeaning(t, FIRST_LEASE, after);
    FirstRecords(after.graph);
    assert after.heads == BETWEEN.heads && after.jobs == BETWEEN.jobs;
  }

  lemma SecondOrdinal()
    ensures NextOrdinal(BETWEEN) == 1
  {
    assert BETWEEN.jobs.Keys == {7};
    var id := Least({7});
    assert id == 7 && {7} - {id} == {};
    assert Highest({}, BETWEEN.jobs) == 0;
  }

  lemma SecondAccepted()
    ensures Accepted(BETWEEN, Said(SECOND), SecondJob(0, Queued, None)) == AtSecond(SecondJob(0, Queued, None))
  {
    hide Staging;
    var after := Accepted(BETWEEN, Said(SECOND), SecondJob(0, Queued, None));
    assert after.jobs == AtSecond(SecondJob(0, Queued, None)).jobs;
    assert after.sources == AtSecond(SecondJob(0, Queued, None)).sources;
  }

  lemma SecondEnqueued()
    ensures Step(BETWEEN, OPS[4]) == AtSecond(SecondJob(0, Queued, None))
  {
    hide Step, NextOrdinal, Accepted, Staging;
    assert Recorded(BETWEEN, SECOND, "engine") == {};
    SecondOrdinal();
    SecondAccepted();
    EnqueueAccepts(BETWEEN, EnqueueInput(8, Said(SECOND), "engine", Some(1)));
  }

  lemma SecondClaimed()
    ensures Step(AtSecond(SecondJob(0, Queued, None)), OPS[5]) == AtSecond(SecondJob(1, HELD_AGAIN, None))
  {
    hide Step, Staging;
    var t, claim := AtSecond(SecondJob(0, Queued, None)), ClaimInput("engine", "worker", 5, 15, 85, None);
    assert forall other | other in t.jobs :: Claimable(t, t.jobs[other], claim) <==> other == 8;
    ClaimTakes(t, claim, 8);
    assert SaveJob(t, SecondJob(1, HELD_AGAIN, None)) == AtSecond(SecondJob(1, HELD_AGAIN, None));
  }

  lemma SecondStaged()
    ensures Step(AtSecond(SecondJob(1, HELD_AGAIN, None)), OPS[6]) == LAST
  {
    hide Step, Plain, Staging;
    var t := AtSecond(SecondJob(1, HELD_AGAIN, None));
    SecondPlain(SecondJob(1, HELD_AGAIN, None));
    StageSaves(t, SECOND_LEASE, INFERRED, SECOND);
    assert SaveJob(t, SecondJob(1, HELD_AGAIN, Some(SECOND_STAGE))) == LAST;
  }

  lemma SecondPublishes()
    ensures Publishes(LAST, SECOND_LEASE)
  {
    hide Publishes, Plain, Staging;
    SecondPlain(SecondJob(1, HELD_AGAIN, Some(SECOND_STAGE)));
    PlainPublishes(LAST, SECOND_LEASE, INFERRED, SECOND);
  }

  lemma StatedRetired()
    ensures 1 in RetiredBy(GRAPH, SECOND_STAGE, SECOND, 20)
  {
    assert Key(MemoryKind, 1) in GRAPH.identities;
    assert 1 in Owned(GRAPH.identities, MemoryKind, 0);
  }

  lemma InferredFrom()
    ensures Supports(INFERRED) == [1] && INFERRED in SECOND_STAGE.memories && 1 in GRAPH.memories
  {
  }

  lemma FirstClosed()
    ensures InferenceClosed(GRAPH)
  {
  }

  lemma PrefixRuns()
    ensures Behaviour(STATES[..4], OPS[..3])
  {
    hide Step, AtFirst, FirstJob, Staging;
    FirstEnqueued();
    FirstClaimed();
    FirstStaged();
  }

  lemma RunIs()
    ensures Behaviour(STATES, OPS)
  {
    hide Step, AtFirst, AtSecond, FirstJob, SecondJob, Staging, Sound;
    PrefixRuns();
    BehaviourSound(STATES[..4], OPS[..3], 3);
    FirstEnqueued();
    FirstClaimed();
    FirstStaged();
    FirstPublished();
    SecondEnqueued();
    SecondClaimed();
    SecondStaged();
  }

  /**
   * A run from empty tables, every transaction of which takes effect: a second revision infers from the memory its
   * first revision published, and publishing it retires that memory with the rest of the first revision's records
   * while the inference stays active.
   */
  lemma InferenceMayBreak()
    ensures Behaviour(STATES, OPS) && Publishes(STATES[7], SECOND_LEASE)
    ensures InferenceClosed(STATES[7].graph) && !InferenceClosed(STATES[8].graph)
  {
    hide Step, Publishes, RetiredBy, Supports, Sound;
    RunIs();
    BehaviourSound(STATES, OPS, 7);
    FirstClosed();
    SecondPublishes();
    StatedRetired();
    InferredFrom();
    Breaks(LAST, SECOND_LEASE, INFERRED, 1);
  }

  /** An accepted publication of an inference from a memory that it retires. */
  lemma Breaks(t: Tables, lease: Lease, m: Memory, s: Id)
    requires Sound(t) && InferenceClosed(t.graph) && Publishes(t, lease) && t.jobs[lease.jobId].stage.Some?
    requires var stage := t.jobs[lease.jobId].stage.value;
      && m in stage.memories && s in Supports(m) && s in t.graph.memories
      && s in RetiredBy(t.graph, stage, t.jobs[lease.jobId].source, lease.now)
    ensures !InferenceClosed(Step(t, PublishOp(lease)).graph)
  {
    hide GraphInv, InferenceClosed, Publishes, Publish, RetiredBy, Supports;
    StepStaysClosed(t, PublishOp(lease));
  }
}
