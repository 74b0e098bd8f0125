/** The records of the knowledge store and the checks and rewrites its adapters share. */
module KnowledgeModel {
  import opened Prelude

  /** Identifiers are compared for equality and order only. */
  type Id = nat

  /** Epoch milliseconds. */
  type Time = int

  datatype Ref = Ref(id: Id, revision: nat)

  datatype Span = Span(source: Ref, start: int, end: int, quote: string)

  /** `metadata` stands for the rest of the payload, `episode` for the one metadata key the store's checks read. */
  datatype Source = Source(ref: Ref, text: string, recordedAt: Time, episode: Option<string>, metadata: string)

  datatype Evidence = Stated | Inferred(supports: seq<Id>)

  datatype Memory = Memory(
    id: Id, routine: bool, text: string, provenance: seq<Span>, entities: seq<Id>, evidence: Evidence,
    knownFrom: Time, knownTo: Option<Time>, mentions: Option<seq<Ref>>)

  datatype Chunk = Chunk(id: Id, text: string, provenance: Span)

  datatype Entity = Entity(id: Id, name: string, kind: string, aliases: set<string>, provenance: seq<Span>)

  datatype Object = EntityObject(entityId: Id) | ValueObject(value: string)

  datatype Assertion = Assertion(
    id: Id, subject: Id, predicateName: string, target: Object, text: string, provenance: seq<Span>,
    validFrom: Option<Time>, validTo: Option<Time>, knownFrom: Time, knownTo: Option<Time>)

  /** New evidence for a memory that stays: the published revision, as one more mention, and its spans. */
  datatype Corroboration = Corroboration(memory: Id, mention: Ref, provenance: seq<Span>)

  datatype Stage = Stage(
    expectedVersion: nat, memories: seq<Memory>, chunks: seq<Chunk>, entities: seq<Entity>, assertions: seq<Assertion>,
    retireMemories: seq<Id>, retireAssertions: seq<Id>, corroborations: seq<Corroboration>)

  datatype Reason = Conflict | LeaseLost | Tombstoned | Invalid

  datatype Phase =
    | Queued
    | Processing(token: nat, worker: string, leaseUntil: Time)
    | Failed(reason: Reason, message: string)
    | Complete(publishedAt: Time)
    | Cancelled(cancelledAt: Time)

  /** `ordinal` is the recording order, given by the table. */
  datatype Job = Job(id: Id, source: Ref, engine: string, attempt: nat, phase: Phase, stage: Option<Stage>, ordinal: nat)

  /** What a scope holds for extraction and validation. */
  datatype Snapshot = Snapshot(version: nat, memories: map<Id, Memory>, entities: map<Id, Entity>, assertions: map<Id, Assertion>)

  predicate Active(m: Memory) { m.knownTo.None? }

  predicate ActiveAssertion(a: Assertion) { a.knownTo.None? }

  /** The source revisions a provenance cites. */
  function Refs(spans: seq<Span>): (r: set<Ref>) {
    set s | s in spans :: s.source
  }

  function Sources(spans: seq<Span>): (r: set<Id>) {
    set s | s in spans :: s.source.id
  }

  function Endpoints(a: Assertion): set<Id> {
    match a.target
    case EntityObject(e) => {a.subject, e}
    case ValueObject(_) => {a.subject}
  }

  function Supports(m: Memory): seq<Id> {
    match m.evidence
    case Stated => []
    case Inferred(supports) => supports
  }

  function RefsOf(spans: seq<Span>): (r: seq<Ref>)
    ensures |r| == |spans| && forall i | 0 <= i < |r| :: r[i] == spans[i].source
  {
    seq(|spans|, i requires 0 <= i < |spans| => spans[i].source)
  }

  /** A memory's mentions without repetition, read off its provenance where none were stored. */
  function Mentions(m: Memory): (r: seq<Ref>)
    ensures NoDuplicates(r)
    ensures m.mentions.None? ==> forall ref | ref in r :: ref in Refs(m.provenance)
  {
    match m.mentions
    case Some(refs) => Distinct(refs)
    case None =>
      match m.evidence
      case Stated =>
        assert forall s | s in Take(m.provenance, 1) :: s in m.provenance;
        Distinct(RefsOf(Take(m.provenance, 1)))
      case Inferred(_) => Distinct(RefsOf(m.provenance))
  }

  /** Adds what a corroboration brings, its spans and its revision, keeping each once. */
  function Corroborate(m: Memory, c: Corroboration): Memory {
    m.(provenance := Distinct(m.provenance + c.provenance), mentions := Some(Distinct(Mentions(m) + [c.mention])))
  }

  /** Whether `ref` is another revision of the source being published. */
  predicate Stale(published: Ref, ref: Ref) {
    ref.id == published.id && ref.revision != published.revision
  }

  /** A memory without the other revisions of `published`; None if that empties its provenance or its mentions. */
  function Strip(m: Memory, published: Ref): (r: Option<Memory>) {
    var provenance := Filter((s: Span) => !Stale(published, s.source), m.provenance);
    var mentions := match m.mentions
      case None => None
      case Some(refs) => Some(Filter((ref: Ref) => !Stale(published, ref), refs));
    if provenance == [] || mentions == Some([]) then None
    else Some(m.(provenance := provenance, mentions := mentions))
  }

  // ---- validateKnowledgeStage ----

  predicate GoodSpan(s: Span, sources: map<Ref, Source>) {
    && 0 <= s.start < s.end
    && s.quote != []
    && s.source in sources
    && s.end <= |sources[s.source].text|
    && sources[s.source].text[s.start..s.end] == s.quote
  }

  predicate GoodSpans(spans: seq<Span>, sources: map<Ref, Source>) {
    forall s | s in spans :: GoodSpan(s, sources)
  }

  predicate SpansGood(stage: Stage, sources: map<Ref, Source>) {
    && (forall m | m in stage.memories :: GoodSpans(m.provenance, sources))
    && (forall c | c in stage.chunks :: GoodSpan(c.provenance, sources))
    && (forall e | e in stage.entities :: GoodSpans(e.provenance, sources))
    && (forall a | a in stage.assertions :: GoodSpans(a.provenance, sources))
    && (forall c | c in stage.corroborations :: GoodSpans(c.provenance, sources))
  }

  predicate IdsDistinct(stage: Stage) {
    && (forall i, j | 0 <= i < j < |stage.memories| :: stage.memories[i].id != stage.memories[j].id)
    && (forall i, j | 0 <= i < j < |stage.chunks| :: stage.chunks[i].id != stage.chunks[j].id)
    && (forall i, j | 0 <= i < j < |stage.entities| :: stage.entities[i].id != stage.entities[j].id)
    && (forall i, j | 0 <= i < j < |stage.assertions| :: stage.assertions[i].id != stage.assertions[j].id)
  }

  function StagedMemories(stage: Stage): (r: set<Id>) { set m | m in stage.memories :: m.id }

  function StagedEntities(stage: Stage): (r: set<Id>) { set e | e in stage.entities :: e.id }

  function StagedAssertions(stage: Stage): (r: set<Id>) { set a | a in stage.assertions :: a.id }

  function StagedChunks(stage: Stage): (r: set<Id>) { set c | c in stage.chunks :: c.id }

  predicate EntitiesKnown(stage: Stage, snapshot: Snapshot) {
    var known := snapshot.entities.Keys + StagedEntities(stage);
    && (forall e | e in stage.entities :: e.provenance != [])
    && (forall a | a in stage.assertions :: Endpoints(a) <= known)
    && (forall m | m in stage.memories :: forall e | e in m.entities :: e in known)
  }

  /** The memories a staged inference may rest on: active ones the stage keeps, and staged ones. */
  function Citable(stage: Stage, snapshot: Snapshot): set<Id> {
    (set id | id in snapshot.memories && Active(snapshot.memories[id]) && id !in stage.retireMemories) + StagedMemories(stage)
  }

  predicate SupportsKnown(stage: Stage, snapshot: Snapshot) {
    forall m | m in stage.memories && m.evidence.Inferred? ::
      && m.evidence.supports != []
      && forall s | s in m.evidence.supports :: s in Citable(stage, snapshot) && s != m.id
  }

  /** The first citable memory of that id: a stored one before a staged one. */
  function Lookup(stage: Stage, snapshot: Snapshot, id: Id): (r: Option<Memory>)
    ensures r.Some? <==> id in Citable(stage, snapshot)
  {
    if id in snapshot.memories && Active(snapshot.memories[id]) && id !in stage.retireMemories then Some(snapshot.memories[id])
    else FindMemory(stage.memories, id)
  }

  function FindMemory(memories: seq<Memory>, id: Id): (r: Option<Memory>)
    ensures r.Some? ==> r.value in memories && r.value.id == id
    ensures r.None? ==> forall m | m in memories :: m.id != id
  {
    if memories == [] then None
    else if memories[0].id == id then Some(memories[0])
    else FindMemory(memories[1..], id)
  }

  /** Whether following supports from `id` comes back to a memory already seen. */
  predicate Cyclic(stage: Stage, snapshot: Snapshot, id: Id, seen: set<Id>)
    decreases Citable(stage, snapshot) - seen
  {
    id in seen ||
    match Lookup(stage, snapshot, id)
    case None => false
    case Some(m) => exists s | s in Supports(m) :: Cyclic(stage, snapshot, s, seen + {id})
  }

  datatype EpisodeKey = Episode(name: string) | Unnamed(source: Id)

  predicate Blank(text: string) { forall c | c in text :: c == ' ' || c == '\t' || c == '\n' || c == '\r' }

  function KeyOf(ref: Ref, sources: map<Ref, Source>): EpisodeKey {
    if ref in sources && sources[ref].episode.Some? && !Blank(sources[ref].episode.value)
    then Episode(sources[ref].episode.value) else Unnamed(ref.id)
  }

  /** The distinct episodes the evidence of a memory's supports belongs to. */
  function Episodes(stage: Stage, snapshot: Snapshot, m: Memory, sources: map<Ref, Source>): set<EpisodeKey> {
    set id, s | id in Supports(m) && id in Citable(stage, snapshot) && s in Lookup(stage, snapshot, id).value.provenance ::
      KeyOf(s.source, sources)
  }

  predicate RoutinesSupported(stage: Stage, snapshot: Snapshot, sources: map<Ref, Source>) {
    forall m | m in stage.memories && m.routine && m.evidence.Inferred? :: |Episodes(stage, snapshot, m, sources)| >= 3
  }

  predicate MentionsCited(stage: Stage) {
    forall m | m in stage.memories && m.mentions.Some? :: forall ref | ref in m.mentions.value :: ref in Refs(m.provenance)
  }

  predicate CorroborationsOwn(stage: Stage, snapshot: Snapshot) {
    forall c | c in stage.corroborations ::
      && Refs(c.provenance) <= {c.mention}
      && (c.memory in snapshot.memories ==> !snapshot.memories[c.memory].evidence.Inferred?)
      && c.memory !in StagedMemories(stage)
  }

  predicate CorroborationsActive(stage: Stage, snapshot: Snapshot) {
    forall c | c in stage.corroborations ::
      c.memory !in stage.retireMemories && c.memory in snapshot.memories && Active(snapshot.memories[c.memory])
  }

  predicate RetiredPresent(stage: Stage, snapshot: Snapshot) {
    && (forall id | id in stage.retireMemories :: id in snapshot.memories && Active(snapshot.memories[id]))
    && (forall id | id in stage.retireAssertions :: id in snapshot.assertions && ActiveAssertion(snapshot.assertions[id]))
  }

  predicate GoodInterval(from: Time, until: Option<Time>) {
    0 <= from && (until.Some? ==> from <= until.value)
  }

  predicate IntervalsGood(stage: Stage) {
    && (forall m | m in stage.memories :: GoodInterval(m.knownFrom, m.knownTo))
    && (forall a | a in stage.assertions ::
          && GoodInterval(a.knownFrom, a.knownTo)
          && match a.validFrom
             case None => a.validTo.Some? ==> 0 <= a.validTo.value
             case Some(from) => GoodInterval(from, a.validTo))
  }

  predicate ProvenanceGiven(stage: Stage) {
    && (forall m | m in stage.memories :: m.provenance != [])
    && (forall a | a in stage.assertions :: a.provenance != [])
  }

  /** The publication checks, against the snapshot and the untombstoned source revisions; None is acceptance. */
  function Refusal(stage: Stage, snapshot: Snapshot, sources: map<Ref, Source>): Option<Reason> {
    if !(&& SpansGood(stage, sources) && IntervalsGood(stage) && ProvenanceGiven(stage) && MentionsCited(stage)
         && CorroborationsOwn(stage, snapshot) && IdsDistinct(stage) && EntitiesKnown(stage, snapshot)
         && SupportsKnown(stage, snapshot) && RoutinesSupported(stage, snapshot, sources)
         && forall m | m in stage.memories :: !Cyclic(stage, snapshot, m.id, {}))
    then Some(Invalid)
    else if !RetiredPresent(stage, snapshot) then Some(Conflict)
    else if !CorroborationsActive(stage, snapshot) then Some(Conflict)
    else None
  }
}
