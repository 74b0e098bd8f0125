/**
 * One scope of the store as tables, and each adapter method as one transaction over them: what it
 * answers and the tables it commits. A refused transaction commits nothing.
 */
module KnowledgeTables {
  import opened Prelude
  import opened Closure
  import opened KnowledgeModel

  datatype Kind = MemoryKind | ChunkKind | EntityKind | AssertionKind

  datatype Head = Head(accepted: nat, published: Option<nat>, tombstone: Option<Time>)

  /** A row of `record_sources`. */
  datatype Row = Row(kind: Kind, id: Id, source: Ref)

  /** The key of `identities`. */
  datatype Key = Key(kind: Kind, id: Id)

  /** The derived records and what ties them to sources; `supports` holds (memory, support) pairs. */
  datatype Graph = Graph(
    memories: map<Id, Memory>,
    chunks: map<Id, Chunk>,
    entities: map<Id, Entity>,
    assertions: map<Id, Assertion>,
    recordSources: set<Row>,
    supports: set<(Id, Id)>,
    identities: map<Key, Ref>)

  datatype Tables = Tables(version: nat, heads: map<Id, Head>, sources: map<Ref, Source>, jobs: map<Id, Job>, graph: Graph)

  const EMPTY_GRAPH := Graph(map[], map[], map[], map[], {}, {}, map[])

  const EMPTY := Tables(0, map[], map[], map[], EMPTY_GRAPH)

  datatype Outcome<+T> = Done(value: T, tables: Tables) | Refused(reason: Reason)

  datatype Lease = Lease(jobId: Id, token: nat, now: Time)

  datatype EnqueueInput = EnqueueInput(jobId: Id, source: Source, engine: string, expectedRevision: Option<nat>)

  datatype ClaimInput = ClaimInput(engine: string, worker: string, token: nat, now: Time, leaseMs: nat, jobId: Option<Id>)

  // ---- reads ----

  predicate Untombstoned(t: Tables, source: Id) {
    source in t.heads && t.heads[source].tombstone.None?
  }

  predicate IsTombstoned(t: Tables, source: Id) {
    source in t.heads && t.heads[source].tombstone.Some?
  }

  function LiveSources(t: Tables): map<Ref, Source> {
    map ref | ref in t.sources && Untombstoned(t, ref.id) :: t.sources[ref]
  }

  function SnapshotOf(t: Tables): Snapshot {
    Snapshot(t.version, t.graph.memories, t.graph.entities, t.graph.assertions)
  }

  predicate Present(g: Graph, kind: Kind, id: Id) {
    match kind
    case MemoryKind => id in g.memories
    case ChunkKind => id in g.chunks
    case EntityKind => id in g.entities
    case AssertionKind => id in g.assertions
  }

  function SaveJob(t: Tables, job: Job): Tables {
    t.(jobs := t.jobs[job.id := job])
  }

  /** Why a lease holder may not write, if so. */
  function LeaseRefusal(t: Tables, lease: Lease): Option<Reason> {
    if lease.jobId !in t.jobs then Some(LeaseLost)
    else
      var job := t.jobs[lease.jobId];
      if !(job.phase.Processing? && job.phase.token == lease.token && job.phase.leaseUntil > lease.now) then Some(LeaseLost)
      else if !Untombstoned(t, job.source.id) then Some(Tombstoned)
      else if t.heads[job.source.id].accepted != job.source.revision then Some(Conflict)
      else None
  }

  function StageRefusal(t: Tables, stage: Stage): Option<Reason> {
    if t.version != stage.expectedVersion then Some(Conflict)
    else Refusal(stage, SnapshotOf(t), LiveSources(t))
  }

  // ---- enqueue, claim, renew, stage, fail, retry, requeue ----

  /** The jobs of one source revision under one engine. */
  function Recorded(t: Tables, source: Ref, engine: string): set<Id> {
    set id | id in t.jobs && t.jobs[id].source == source && t.jobs[id].engine == engine
  }

  function NextOrdinal(t: Tables): nat {
    if t.jobs == map[] then 0 else Highest(t.jobs.Keys, t.jobs) + 1
  }

  function Highest(ids: set<Id>, jobs: map<Id, Job>): (r: nat)
    requires ids <= jobs.Keys
    ensures forall id | id in ids :: jobs[id].ordinal <= r
  {
    if ids == {} then 0
    else
      var id := Least(ids);
      Max(jobs[id].ordinal, Highest(ids - {id}, jobs))
  }

  predicate Superseded(job: Job, source: Ref) {
    job.source.id == source.id && job.source.revision < source.revision
  }

  function Enqueue(t: Tables, input: EnqueueInput): Outcome<Job> {
    var ref := input.source.ref;
    var recorded := Recorded(t, ref, input.engine);
    var accepted := if ref.id in t.heads then t.heads[ref.id].accepted else 0;
    if IsTombstoned(t, ref.id) then Refused(Tombstoned)
    else if input.jobId in t.jobs && (t.jobs[input.jobId].source != ref || t.jobs[input.jobId].engine != input.engine) then Refused(Conflict)
    else if ref in t.sources && t.sources[ref] != input.source then Refused(Conflict)
    else if recorded != {} then Done(t.jobs[Least(recorded)], t)
    else if accepted != input.expectedRevision.GetOr(0) || ref.revision <= accepted then Refused(Conflict)
    else
      var job := Job(input.jobId, ref, input.engine, 0, Queued, None, NextOrdinal(t));
      Done(job, Accepted(t, input.source, job))
  }

  /** UPDATE ... SET the unfinished jobs of the source's older revisions cancelled. */
  function WithoutSuperseded(jobs: map<Id, Job>, source: Source): (r: map<Id, Job>)
    ensures r.Keys == jobs.Keys
  {
    map id | id in jobs ::
      if Superseded(jobs[id], source.ref) && (jobs[id].phase.Queued? || jobs[id].phase.Processing? || jobs[id].phase.Failed?)
      then jobs[id].(phase := Cancelled(source.recordedAt), stage := None)
      else jobs[id]
  }

  /** The tables once a new revision is accepted: its head, its evidence and its job, with the older unfinished jobs cancelled. */
  function Accepted(t: Tables, source: Source, job: Job): Tables {
    var ref := source.ref;
    var head := if ref.id in t.heads then t.heads[ref.id].(accepted := ref.revision) else Head(ref.revision, None, None);
    var jobs := WithoutSuperseded(t.jobs, source);
    t.(heads := t.heads[ref.id := head],
       sources := if ref in t.sources then t.sources else t.sources[ref := source],
       jobs := jobs[job.id := job])
  }

  predicate Claimable(t: Tables, job: Job, input: ClaimInput) {
    && Untombstoned(t, job.source.id)
    && job.source.revision == t.heads[job.source.id].accepted
    && (job.phase.Queued? || (job.phase.Processing? && job.phase.leaseUntil <= input.now))
    && (input.jobId.Some? ==> job.id == input.jobId.value)
    && job.engine == input.engine
  }

  function ClaimableJobs(t: Tables, input: ClaimInput): (r: set<Id>)
    ensures forall id :: id in r <==> id in t.jobs && Claimable(t, t.jobs[id], input)
  {
    set id | id in t.jobs && Claimable(t, t.jobs[id], input)
  }

  /** The claimable job recorded first. */
  function NextJob(t: Tables, input: ClaimInput): (r: Option<Job>)
    ensures r.None? ==> forall id | id in t.jobs :: !Claimable(t, t.jobs[id], input)
    ensures r.Some? ==>
      && Claimable(t, r.value, input)
      && (exists id | id in t.jobs :: t.jobs[id] == r.value)
      && forall id | id in t.jobs && Claimable(t, t.jobs[id], input) :: r.value.ordinal <= t.jobs[id].ordinal
  {
    var ids := ClaimableJobs(t, input);
    if ids == {} then None
    else
      assert exists id :: id in ids;
      var ordinals := set id | id in ids :: t.jobs[id].ordinal;
      assert forall id | id in ids :: t.jobs[id].ordinal in ordinals;
      var first := Least(ordinals);
      var earliest := set id | id in ids && t.jobs[id].ordinal == first;
      assert earliest != {} by {
        var id :| id in ids && t.jobs[id].ordinal == first;
        assert id in earliest;
      }
      Some(t.jobs[Least(earliest)])
  }

  function Claim(t: Tables, input: ClaimInput): Outcome<Option<Job>> {
    match NextJob(t, input)
    case None => Done(None, t)
    case Some(prior) =>
      var job := prior.(attempt := prior.attempt + 1, phase := Processing(input.token, input.worker, input.now + input.leaseMs));
      Done(Some(job), SaveJob(t, job))
  }

  function Renew(t: Tables, lease: Lease, leaseMs: int): Outcome<Job> {
    if leaseMs <= 0 then Refused(Invalid)
    else match LeaseRefusal(t, lease)
      case Some(reason) => Refused(reason)
      case None =>
        var job := t.jobs[lease.jobId];
        var renewed := job.(phase := job.phase.(leaseUntil := lease.now + leaseMs));
        Done(renewed, SaveJob(t, renewed))
  }

  function PutStage(t: Tables, lease: Lease, stage: Stage): Outcome<()> {
    match LeaseRefusal(t, lease)
    case Some(reason) => Refused(reason)
    case None =>
      match StageRefusal(t, stage)
      case Some(reason) => Refused(reason)
      case None => Done((), SaveJob(t, t.jobs[lease.jobId].(stage := Some(stage))))
  }

  function Fail(t: Tables, lease: Lease, reason: Reason, message: string): Outcome<()> {
    match LeaseRefusal(t, lease)
    case Some(refusal) => Refused(refusal)
    case None => Done((), SaveJob(t, t.jobs[lease.jobId].(phase := Failed(reason, message))))
  }

  function Retry(t: Tables, id: Id): Outcome<Job> {
    if id !in t.jobs then Refused(Invalid)
    else
      var job := t.jobs[id];
      if !Untombstoned(t, job.source.id) then Refused(Tombstoned)
      else if t.heads[job.source.id].accepted != job.source.revision then Refused(Conflict)
      else if !job.phase.Failed? then Refused(Conflict)
      else Done(job.(phase := Queued), SaveJob(t, job.(phase := Queued)))
  }

  function Requeue(t: Tables, id: Id, engine: string): Outcome<Job> {
    if id !in t.jobs then Refused(Conflict)
    else
      var prior := t.jobs[id];
      if !Untombstoned(t, prior.source.id) then Refused(Tombstoned)
      else if !prior.phase.Failed? then Refused(Conflict)
      else if t.heads[prior.source.id].accepted != prior.source.revision then Refused(Conflict)
      else if Recorded(t, prior.source, engine) - {id} != {} then Refused(Conflict)
      else
        var job := prior.(engine := engine, attempt := 0, phase := Queued, stage := if prior.engine == engine then prior.stage else None);
        Done(job, SaveJob(t, job))
  }

  // ---- publish ----

  /** Whether the stage cites another revision of the job's own source. */
  predicate CitesEarlier(stage: Stage, source: Ref) {
    || (exists m | m in stage.memories :: exists s | s in m.provenance :: Stale(source, s.source))
    || (exists c | c in stage.chunks :: Stale(source, c.provenance.source))
    || (exists a | a in stage.assertions :: exists s | s in a.provenance :: Stale(source, s.source))
    || (exists e | e in stage.entities :: exists s | s in e.provenance :: Stale(source, s.source))
    || (exists c | c in stage.corroborations :: exists s | s in c.provenance :: Stale(source, s.source))
  }

  function StagedKeys(stage: Stage): (r: set<Key>)
    ensures forall k | k in r :: !k.kind.EntityKind?
  {
    (set id | id in StagedMemories(stage) :: Key(MemoryKind, id))
    + (set id | id in StagedChunks(stage) :: Key(ChunkKind, id))
    + (set id | id in StagedAssertions(stage) :: Key(AssertionKind, id))
  }

  /** Every staged identity is new, or was this revision's and holds no record now. */
  predicate IdentitiesFree(g: Graph, stage: Stage, source: Ref) {
    forall k | k in StagedKeys(stage) :: (k in g.identities ==> g.identities[k] == source) && !Present(g, k.kind, k.id)
  }

  /** The tables with the staged identities taken and what was left of their earlier records removed. */
  function Prepared(g: Graph, stage: Stage, source: Ref): Graph {
    g.(identities := g.identities + map k | k in StagedKeys(stage) && k !in g.identities :: source,
       recordSources := (set r | r in g.recordSources && Key(r.kind, r.id) !in StagedKeys(stage)),
       supports := (set e | e in g.supports && e.0 !in StagedMemories(stage)))
  }

  /** The records of a kind the source published, in any revision. */
  function Owned(identities: map<Key, Ref>, kind: Kind, source: Id): set<Id> {
    set k | k in identities && k.kind == kind && identities[k].id == source :: k.id
  }

  /** From each support to the memories inferred from it. */
  function Inferences(supports: set<(Id, Id)>): set<(Id, Id)> {
    set e | e in supports :: (e.1, e.0)
  }

  /** UPDATE ... SET known_to WHERE known_to IS NULL AND id IN ... */
  function RetireIn(memories: map<Id, Memory>, ids: set<Id>, now: Time): (r: map<Id, Memory>)
    ensures r.Keys == memories.Keys
  {
    map id | id in memories ::
      if id in ids && Active(memories[id]) then memories[id].(knownTo := Some(now)) else memories[id]
  }

  /** `closeSource`, `retire` and the first `closeDependents`: what falls with the source's records and the retired memories. */
  function Replaced(g: Graph, stage: Stage, source: Ref): set<Id> {
    Reach(Inferences(g.supports), Owned(g.identities, MemoryKind, source.id) + (set id | id in stage.retireMemories))
  }

  /** The active memories that cite another revision of the source, by their rows. */
  function StaleMemories(memories: map<Id, Memory>, rows: set<Row>, source: Ref): set<Id> {
    set r | r in rows && r.kind == MemoryKind && Stale(source, r.source) && r.id in memories && Active(memories[r.id]) :: r.id
  }

  /** Those of them that `stripKnowledgeRevisions` leaves nothing of. */
  function Emptied(memories: map<Id, Memory>, rows: set<Row>, source: Ref): set<Id> {
    set id | id in StaleMemories(memories, rows, source) && Strip(memories[id], source).None?
  }

  function StripIn(memories: map<Id, Memory>, rows: set<Row>, source: Ref, now: Time): (r: map<Id, Memory>)
    ensures r.Keys == memories.Keys
  {
    map id | id in memories ::
      if id !in StaleMemories(memories, rows, source) then memories[id]
      else match Strip(memories[id], source)
        case None => memories[id].(knownTo := Some(now))
        case Some(kept) => kept
  }

  function StripRows(memories: map<Id, Memory>, rows: set<Row>, source: Ref): set<Row> {
    var kept := StaleMemories(memories, rows, source) - Emptied(memories, rows, source);
    set r | r in rows && !(r.kind == MemoryKind && r.id in kept && Stale(source, r.source))
  }

  /** The stored memories once the publication has retired and stripped what it replaces. */
  function Survivors(g: Graph, stage: Stage, source: Ref, now: Time): (r: map<Id, Memory>)
    ensures r.Keys == g.memories.Keys
  {
    var replaced := RetireIn(g.memories, Replaced(g, stage, source), now);
    var stripped := StripIn(replaced, g.recordSources, source, now);
    var emptied := Emptied(replaced, g.recordSources, source);
    if emptied == {} then stripped
    else RetireIn(stripped, Reach(Inferences(g.supports), Owned(g.identities, MemoryKind, source.id) + emptied), now)
  }

  function StoredMemory(m: Memory, now: Time): Memory { m.(knownFrom := now, knownTo := None) }

  function StoredAssertion(a: Assertion, now: Time): Assertion { a.(knownFrom := now, knownTo := None) }

  function StoredMemories(staged: seq<Memory>, now: Time): (r: map<Id, Memory>)
    ensures r.Keys == set m | m in staged :: m.id
    ensures forall id | id in r :: r[id].id == id && Active(r[id])
  {
    var keyed := Keyed(staged, (m: Memory) => m.id);
    map id | id in keyed :: StoredMemory(keyed[id], now)
  }

  function StoredAssertions(staged: seq<Assertion>, now: Time): (r: map<Id, Assertion>)
    ensures r.Keys == set a | a in staged :: a.id
    ensures forall id | id in r :: r[id].id == id
  {
    var keyed := Keyed(staged, (a: Assertion) => a.id);
    map id | id in keyed :: StoredAssertion(keyed[id], now)
  }

  function StoredChunks(staged: seq<Chunk>): (r: map<Id, Chunk>)
    ensures r.Keys == set c | c in staged :: c.id
    ensures forall id | id in r :: r[id].id == id
  {
    Keyed(staged, (c: Chunk) => c.id)
  }

  /** A staged entity under an identity: its aliases and spans join those already stored. */
  function MergeEntity(entities: map<Id, Entity>, e: Entity): Entity {
    if e.id in entities
    then e.(aliases := entities[e.id].aliases + e.aliases, provenance := Distinct(entities[e.id].provenance + e.provenance))
    else e.(provenance := Distinct(e.provenance))
  }

  function MergedEntities(entities: map<Id, Entity>, staged: seq<Entity>): (r: map<Id, Entity>)
    ensures r.Keys == set e | e in staged :: e.id
    ensures forall id | id in r :: r[id].id == id
  {
    var keyed := Keyed(staged, (e: Entity) => e.id);
    map id | id in keyed :: MergeEntity(entities, keyed[id])
  }

  predicate EntitiesAgree(entities: map<Id, Entity>, stage: Stage) {
    forall e | e in stage.entities && e.id in entities :: entities[e.id].name == e.name && entities[e.id].kind == e.kind
  }

  /** The corroborations applied in order, each to the memory it restates. */
  function CorroborateAll(memories: map<Id, Memory>, cs: seq<Corroboration>): (r: map<Id, Memory>)
    requires forall c | c in cs :: c.memory in memories
    ensures r.Keys == memories.Keys
  {
    if cs == [] then memories
    else
      var earlier := CorroborateAll(memories, cs[..|cs| - 1]);
      var c := cs[|cs| - 1];
      earlier[c.memory := Corroborate(earlier[c.memory], c)]
  }

  predicate CorroborationsHold(memories: map<Id, Memory>, cs: seq<Corroboration>) {
    forall c | c in cs :: c.memory in memories && Active(memories[c.memory])
  }

  function RowsOf(kind: Kind, id: Id, spans: seq<Span>): set<Row> {
    set s | s in spans :: Row(kind, id, s.source)
  }

  function MemoryRows(staged: seq<Memory>): set<Row> {
    set m, s | m in staged && s in m.provenance :: Row(MemoryKind, m.id, s.source)
  }

  function AssertionRows(staged: seq<Assertion>): set<Row> {
    set a, s | a in staged && s in a.provenance :: Row(AssertionKind, a.id, s.source)
  }

  function CorroborationRows(cs: seq<Corroboration>): set<Row> {
    set c, s | c in cs && s in c.provenance :: Row(MemoryKind, c.memory, s.source)
  }

  function EntityRows(merged: map<Id, Entity>): set<Row> {
    set id, s | id in merged && s in merged[id].provenance :: Row(EntityKind, id, s.source)
  }

  function StagedSupports(staged: seq<Memory>): set<(Id, Id)> {
    set m, s | m in staged && s in Supports(m) :: (m.id, s)
  }

  /** The assertions once the source's and the retired ones are closed. */
  function ClosedAssertions(g: Graph, stage: Stage, source: Ref, now: Time): (r: map<Id, Assertion>)
    ensures r.Keys == g.assertions.Keys
  {
    map id | id in g.assertions ::
      if ActiveAssertion(g.assertions[id]) && (id in stage.retireAssertions || CitesByRow(g.recordSources, AssertionKind, id, source.id))
      then g.assertions[id].(knownTo := Some(now)) else g.assertions[id]
  }

  predicate CitesByRow(rows: set<Row>, kind: Kind, id: Id, source: Id) {
    exists r | r in rows :: r.kind == kind && r.id == id && r.source.id == source
  }

  function KeptChunks(chunks: map<Id, Chunk>, source: Id): map<Id, Chunk> {
    map id | id in chunks && chunks[id].provenance.source.id != source :: chunks[id]
  }

  /** The memories a publication leaves before its corroborations: the survivors and the new ones. */
  function PublishedMemories(g: Graph, stage: Stage, source: Ref, now: Time): map<Id, Memory> {
    Survivors(g, stage, source, now) + StoredMemories(stage.memories, now)
  }

  /** The records a publication leaves, from a graph already `Prepared`. */
  function PublishedGraph(g: Graph, source: Ref, stage: Stage, now: Time): Graph
    requires CorroborationsHold(PublishedMemories(g, stage, source, now), stage.corroborations)
  {
    var merged := MergedEntities(g.entities, stage.entities);
    var rows := StripRows(RetireIn(g.memories, Replaced(g, stage, source), now), g.recordSources, source);
    Graph(
      CorroborateAll(PublishedMemories(g, stage, source, now), stage.corroborations),
      KeptChunks(g.chunks, source.id) + StoredChunks(stage.chunks),
      g.entities + merged,
      ClosedAssertions(g, stage, source, now) + StoredAssertions(stage.assertions, now),
      (set r | r in rows && !(r.kind == EntityKind && r.id in merged))
        + EntityRows(merged) + MemoryRows(stage.memories) + AssertionRows(stage.assertions) + CorroborationRows(stage.corroborations),
      g.supports + StagedSupports(stage.memories),
      g.identities)
  }

  /** What `publish` commits. */
  function Published(t: Tables, job: Job, stage: Stage, now: Time): Tables
    requires job.source.id in t.heads
    requires CorroborationsHold(PublishedMemories(Prepared(t.graph, stage, job.source), stage, job.source, now), stage.corroborations)
  {
    Tables(
      t.version + 1,
      t.heads[job.source.id := t.heads[job.source.id].(published := Some(job.source.revision))],
      t.sources,
      t.jobs[job.id := job.(phase := Complete(now))],
      PublishedGraph(Prepared(t.graph, stage, job.source), job.source, stage, now))
  }

  /** Why a leased job's stage may not be published, if so; the checks run in this order. */
  function PublishRefusal(t: Tables, job: Job, now: Time): Option<Reason> {
    if job.stage.None? then Some(Conflict)
    else
      var stage := job.stage.value;
      match StageRefusal(t, stage)
      case Some(reason) => Some(reason)
      case None =>
        if CitesEarlier(stage, job.source) then Some(Invalid)
        else if exists c | c in stage.corroborations :: c.mention != job.source then Some(Invalid)
        else if !IdentitiesFree(t.graph, stage, job.source) then Some(Conflict)
        else if !EntitiesAgree(t.graph.entities, stage) then Some(Conflict)
        else if exists c | c in stage.chunks :: c.text != c.provenance.quote then Some(Invalid)
        else if !CorroborationsHold(PublishedMemories(Prepared(t.graph, stage, job.source), stage, job.source, now), stage.corroborations)
        then Some(Conflict)
        else None
  }

  /** Whether a publication under this lease replaces the source's records (and is no replay of a completed one). */
  predicate Publishes(t: Tables, lease: Lease) {
    && LeaseRefusal(t, lease).None?
    && PublishRefusal(t, t.jobs[lease.jobId], lease.now).None?
  }

  function Publish(t: Tables, lease: Lease): Outcome<()> {
    if lease.jobId in t.jobs && t.jobs[lease.jobId].phase.Complete? then Done((), t)
    else match LeaseRefusal(t, lease)
      case Some(reason) => Refused(reason)
      case None =>
        var job := t.jobs[lease.jobId];
        match PublishRefusal(t, job, lease.now)
        case Some(reason) => Refused(reason)
        case None => Done((), Published(t, job, job.stage.value, lease.now))
  }

  // ---- forget ----

  /** One record resting on one source: it cites the source, or the source published it. */
  datatype Proof = Proof(kind: Kind, id: Id, source: Id)

  function Proofs(g: Graph): set<Proof> {
    (set r | r in g.recordSources && !r.kind.ChunkKind? && Present(g, r.kind, r.id) :: Proof(r.kind, r.id, r.source.id))
    + (set k | k in g.identities && !k.kind.EntityKind? && Present(g, k.kind, k.id) :: Proof(k.kind, k.id, g.identities[k].id))
    + (set id | id in g.chunks :: Proof(ChunkKind, id, g.chunks[id].provenance.source.id))
  }

  /** Whether rebuilding what `p` proves takes what `q` proves with it. */
  predicate Linked(g: Graph, p: Proof, q: Proof) {
    || (p.kind == q.kind && p.id == q.id)
    || (p.kind.EntityKind? && q.kind.MemoryKind? && q.id in g.memories && p.id in g.memories[q.id].entities)
    || (p.kind.EntityKind? && q.kind.AssertionKind? && q.id in g.assertions && p.id in Endpoints(g.assertions[q.id]))
    || (p.kind.MemoryKind? && q.kind.MemoryKind? && (q.id, p.id) in g.supports)
  }

  function Links(g: Graph): set<(Id, Id)> {
    var proofs := Proofs(g);
    set p, q | p in proofs && q in proofs && Linked(g, p, q) :: (p.source, q.source)
  }

  /** `rebuildSources`: every source whose output must be rebuilt once `source` is gone. */
  function Affected(g: Graph, source: Id): set<Id> {
    Reach(Links(g), {source})
  }

  /** Whether a record of the kind cites, or was published by, one of the sources. */
  predicate RestsOn(g: Graph, kind: Kind, id: Id, sources: set<Id>) {
    || (exists r | r in g.recordSources :: r.kind == kind && r.id == id && r.source.id in sources)
    || (Key(kind, id) in g.identities && g.identities[Key(kind, id)].id in sources)
  }

  predicate CitesAny(g: Graph, kind: Kind, id: Id, sources: set<Id>) {
    exists r | r in g.recordSources :: r.kind == kind && r.id == id && r.source.id in sources
  }

  predicate ChunkRestsOn(g: Graph, id: Id, sources: set<Id>)
    requires id in g.chunks
  {
    || g.chunks[id].provenance.source.id in sources
    || (Key(ChunkKind, id) in g.identities && g.identities[Key(ChunkKind, id)].id in sources)
  }

  function ForgottenJobs(t: Tables, source: Id, affected: set<Id>, now: Time): map<Id, Job> {
    map id | id in t.jobs ::
      var job := t.jobs[id];
      if job.source.id == source then job.(phase := if job.phase.Cancelled? then job.phase else Cancelled(now), stage := None)
      else if job.source.id in affected && Untombstoned(t, job.source.id) && t.heads[job.source.id].accepted == job.source.revision
      then job.(phase := Queued, stage := None)
      else job.(stage := None)
  }

  function Purged(g: Graph, affected: set<Id>): Graph {
    var memories := set id | id in g.memories && RestsOn(g, MemoryKind, id, affected);
    var assertions := set id | id in g.assertions && RestsOn(g, AssertionKind, id, affected);
    g.(memories := g.memories - memories,
       assertions := g.assertions - assertions,
       entities := (map id | id in g.entities && !CitesAny(g, EntityKind, id, affected) :: g.entities[id]),
       chunks := (map id | id in g.chunks && !ChunkRestsOn(g, id, affected) :: g.chunks[id]),
       supports := (set e | e in g.supports && e.0 !in memories && e.1 !in memories),
       recordSources := (set r | r in g.recordSources
                          && !(r.kind.MemoryKind? && r.id in memories)
                          && !(r.kind.AssertionKind? && r.id in assertions)
                          && !(r.kind.EntityKind? && CitesAny(g, EntityKind, r.id, affected))))
  }

  /** What `forget` commits for a source not forgotten yet. */
  function Forgotten(t: Tables, source: Id, affected: set<Id>, now: Time): Tables {
    Tables(
      t.version + 1,
      t.heads[source := (if source in t.heads then t.heads[source] else Head(0, None, None)).(tombstone := Some(now))],
      map ref | ref in t.sources && ref.id != source :: t.sources[ref],
      ForgottenJobs(t, source, affected, now),
      Purged(t.graph, affected))
  }

  function Forget(t: Tables, source: Id, now: Time): Tables {
    if IsTombstoned(t, source) then t else Forgotten(t, source, Affected(t.graph, source), now)
  }
}
