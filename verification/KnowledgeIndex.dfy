/** The store as the adapter runs it: one object whose tables each transaction updates statement by statement. */
module KnowledgeIndex {
  import opened Prelude
  import opened Closure
  import opened KnowledgeModel
  import opened KnowledgeTables
  import opened KnowledgeQueue
  import opened KnowledgeGraph
  import opened KnowledgePublish

  datatype Result<+T> = Ok(value: T) | Err(reason: Reason)

  function Answer<T>(o: Outcome<T>): Result<T> {
    match o
    case Done(value, _) => Ok(value)
    case Refused(reason) => Err(reason)
  }

  /** WITH RECURSIVE: rounds of the query until a round adds nothing. */
  method Recursive(edges: set<(Id, Id)>, seeds: set<Id>) returns (reached: set<Id>)
    ensures reached == Reach(edges, seeds)
  {
    reached := seeds;
    var next := Expand(edges, reached);
    while next != reached
      invariant next == Expand(edges, reached)
      invariant Reach(edges, reached) == Reach(edges, seeds)
      decreases Targets(edges) - reached
    {
      reached := next;
      next := Expand(edges, reached);
    }
  }

  class PostgresIndex {
    var version: nat
    var heads: map<Id, Head>
    var sources: map<Ref, Source>
    var jobs: map<Id, Job>
    var memories: map<Id, Memory>
    var chunks: map<Id, Chunk>
    var entities: map<Id, Entity>
    var assertions: map<Id, Assertion>
    var recordSources: set<Row>
    var supports: set<(Id, Id)>
    var identities: map<Key, Ref>

    function Records(): Graph
      reads this
    {
      Graph(memories, chunks, entities, assertions, recordSources, supports, identities)
    }

    function View(): Tables
      reads this
    {
      Tables(version, heads, sources, jobs, Records())
    }

    constructor ()
      ensures View() == EMPTY
    {
      version, heads, sources, jobs := 0, map[], map[], map[];
      memories, chunks, entities, assertions := map[], map[], map[], map[];
      recordSources, supports, identities := {}, {}, map[];
    }

    /** ROLLBACK: the tables as they were at BEGIN. */
    method Rollback(begin: Tables)
      modifies this
      ensures View() == begin
    {
      version, heads, sources, jobs := begin.version, begin.heads, begin.sources, begin.jobs;
      memories, chunks := begin.graph.memories, begin.graph.chunks;
      entities, assertions := begin.graph.entities, begin.graph.assertions;
      recordSources, supports, identities := begin.graph.recordSources, begin.graph.supports, begin.graph.identities;
    }

    // ---- the queue ----

    method Save(job: Job)
      modifies this`jobs
      ensures View() == SaveJob(old(View()), job)
    {
      jobs := jobs[job.id := job];
    }

    method Accept(source: Source, job: Job)
      modifies this`heads, this`sources, this`jobs
      ensures View() == Accepted(old(View()), source, job)
    {
      hide WithoutSuperseded;
      var ref := source.ref;
      heads := heads[ref.id := if ref.id in heads then heads[ref.id].(accepted := ref.revision) else Head(ref.revision, None, None)];
      if ref !in sources { sources := sources[ref := source]; }
      jobs := WithoutSuperseded(jobs, source);
      jobs := jobs[job.id := job];
    }

    method EnqueueSource(input: EnqueueInput) returns (r: Result<Job>)
      modifies this`heads, this`sources, this`jobs
      ensures r == Answer(Enqueue(old(View()), input)) && View() == Commit(old(View()), Enqueue(old(View()), input))
    {
      var ref := input.source.ref;
      if IsTombstoned(View(), ref.id) { return Err(Tombstoned); }
      if input.jobId in jobs && (jobs[input.jobId].source != ref || jobs[input.jobId].engine != input.engine) { return Err(Conflict); }
      if ref in sources && sources[ref] != input.source { return Err(Conflict); }
      var replay := Recorded(View(), ref, input.engine);
      if replay != {} { return Ok(jobs[Least(replay)]); }
      var revision := if ref.id in heads then heads[ref.id].accepted else 0;
      var matches := match input.expectedRevision case None => revision == 0 case Some(expected) => revision == expected;
      if !matches || ref.revision <= revision { return Err(Conflict); }
      var job := Job(input.jobId, ref, input.engine, 0, Queued, None, NextOrdinal(View()));
      hide Accepted, NextOrdinal, Recorded;
      Accept(input.source, job);
      r := Ok(job);
    }

    method ClaimJob(input: ClaimInput) returns (r: Result<Option<Job>>)
      modifies this`jobs
      ensures r == Answer(Claim(old(View()), input)) && View() == Commit(old(View()), Claim(old(View()), input))
    {
      var next := NextJob(View(), input);
      if next.None? { return Ok(None); }
      var job := next.value.(attempt := next.value.attempt + 1, phase := Processing(input.token, input.worker, input.now + input.leaseMs));
      Save(job);
      r := Ok(Some(job));
    }

    /** `leased`: the job, while the lease is its own, unexpired and on a live source's accepted revision. */
    method Leased(lease: Lease) returns (r: Result<Job>)
      ensures r == match LeaseRefusal(View(), lease) case Some(reason) => Err(reason) case None => Ok(jobs[lease.jobId])
    {
      if lease.jobId !in jobs { return Err(LeaseLost); }
      var job := jobs[lease.jobId];
      if !(job.phase.Processing? && job.phase.token == lease.token && job.phase.leaseUntil > lease.now) { return Err(LeaseLost); }
      if job.source.id !in heads || heads[job.source.id].tombstone.Some? { return Err(Tombstoned); }
      if heads[job.source.id].accepted != job.source.revision { return Err(Conflict); }
      r := Ok(job);
    }

    method RenewLease(lease: Lease, leaseMs: int) returns (r: Result<Job>)
      modifies this`jobs
      ensures r == Answer(Renew(old(View()), lease, leaseMs)) && View() == Commit(old(View()), Renew(old(View()), lease, leaseMs))
    {
      if leaseMs <= 0 { return Err(Invalid); }
      var leased := Leased(lease);
      if leased.Err? { return leased; }
      var renewed := leased.value.(phase := leased.value.phase.(leaseUntil := lease.now + leaseMs));
      Save(renewed);
      r := Ok(renewed);
    }

    method StageExtraction(lease: Lease, stage: Stage) returns (r: Result<()>)
      modifies this`jobs
      ensures r == Answer(PutStage(old(View()), lease, stage)) && View() == Commit(old(View()), PutStage(old(View()), lease, stage))
    {
      var leased := Leased(lease);
      if leased.Err? { return Err(leased.reason); }
      var refusal := StageRefusal(View(), stage);
      if refusal.Some? { return Err(refusal.value); }
      Save(leased.value.(stage := Some(stage)));
      r := Ok(());
    }

    method FailJob(lease: Lease, reason: Reason, message: string) returns (r: Result<()>)
      modifies this`jobs
      ensures r == Answer(Fail(old(View()), lease, reason, message)) && View() == Commit(old(View()), Fail(old(View()), lease, reason, message))
    {
      var leased := Leased(lease);
      if leased.Err? { return Err(leased.reason); }
      Save(leased.value.(phase := Failed(reason, message)));
      r := Ok(());
    }

    method RetryJob(id: Id) returns (r: Result<Job>)
      modifies this`jobs
      ensures r == Answer(Retry(old(View()), id)) && View() == Commit(old(View()), Retry(old(View()), id))
    {
      if id !in jobs { return Err(Invalid); }
      var found := jobs[id];
      if found.source.id !in heads || heads[found.source.id].tombstone.Some? { return Err(Tombstoned); }
      if heads[found.source.id].accepted != found.source.revision { return Err(Conflict); }
      if !found.phase.Failed? { return Err(Conflict); }
      Save(found.(phase := Queued));
      r := Ok(found.(phase := Queued));
    }

    method RequeueJob(id: Id, engine: string) returns (r: Result<Job>)
      modifies this`jobs
      ensures r == Answer(Requeue(old(View()), id, engine)) && View() == Commit(old(View()), Requeue(old(View()), id, engine))
    {
      if id !in jobs { return Err(Conflict); }
      var prior := jobs[id];
      if prior.source.id !in heads || heads[prior.source.id].tombstone.Some? { return Err(Tombstoned); }
      if !prior.phase.Failed? { return Err(Conflict); }
      if heads[prior.source.id].accepted != prior.source.revision { return Err(Conflict); }
      if Recorded(View(), prior.source, engine) - {id} != {} { return Err(Conflict); }
      var job := prior.(engine := engine, attempt := 0, phase := Queued, stage := if prior.engine == engine then prior.stage else None);
      Save(job);
      r := Ok(job);
    }

    // ---- forget ----

    /** DELETE ... RETURNING id for memories and assertions, with their supports and rows. */
    method PurgeDerived(affected: set<Id>)
      modifies this`memories, this`assertions, this`supports, this`recordSources
      ensures memories == Purged(old(Records()), affected).memories && assertions == Purged(old(Records()), affected).assertions
      ensures supports == Purged(old(Records()), affected).supports
      ensures DerivedRows(old(Records()), affected, recordSources)
    {
      var purgedMemories := set id | id in memories && RestsOn(Records(), MemoryKind, id, affected);
      var purgedAssertions := set id | id in assertions && RestsOn(Records(), AssertionKind, id, affected);
      memories := memories - purgedMemories;
      assertions := assertions - purgedAssertions;
      supports := set e | e in supports && e.0 !in purgedMemories && e.1 !in purgedMemories;
      recordSources := set row | row in recordSources
        && !((row.kind.MemoryKind? && row.id in purgedMemories) || (row.kind.AssertionKind? && row.id in purgedAssertions));
    }

    method PurgeEntities(entityIds: set<Id>)
      modifies this`entities, this`recordSources
      ensures entities == old(entities) - entityIds
      ensures recordSources == set row | row in old(recordSources) && !(row.kind.EntityKind? && row.id in entityIds)
    {
      entities := entities - entityIds;
      recordSources := set row | row in recordSources && !(row.kind.EntityKind? && row.id in entityIds);
    }

    method PurgeChunks(affected: set<Id>)
      modifies this`chunks
      ensures chunks == Purged(old(Records()), affected).chunks
    {
      chunks := map id | id in chunks && !ChunkRestsOn(Records(), id, affected) :: chunks[id];
    }

    method PurgeRecords(affected: set<Id>)
      modifies this`memories, this`assertions, this`supports, this`recordSources, this`entities, this`chunks
      ensures Records() == Purged(old(Records()), affected)
    {
      hide Purged, RestsOn;
      ghost var g := Records();
      var entityIds := set row | row in recordSources && row.kind.EntityKind? && row.source.id in affected :: row.id;
      PurgeDerived(affected);
      PurgedEntities(g, affected, entityIds, recordSources);
      PurgeEntities(entityIds);
      PurgedChunks(g, Records(), affected);
      PurgeChunks(affected);
    }

    method CancelJobs(source: Id, now: Time)
      modifies this`jobs
      ensures jobs == CancelledJobs(old(jobs), source, now)
    {
      jobs := map id | id in jobs ::
        if jobs[id].source.id == source && !jobs[id].phase.Cancelled? then jobs[id].(phase := Cancelled(now), stage := None) else jobs[id];
    }

    /** Every stage is cleared, then the other affected sources' jobs at their accepted revisions are queued again. */
    method RequeueAffected(source: Id, affected: set<Id>)
      modifies this`jobs
      ensures jobs == RequeuedJobs(old(jobs), heads, source, affected)
    {
      jobs := map id | id in jobs :: jobs[id].(stage := None);
      jobs := map id | id in jobs ::
        if jobs[id].source.id != source && jobs[id].source.id in affected
           && jobs[id].source.id in heads && heads[jobs[id].source.id].tombstone.None?
           && heads[jobs[id].source.id].accepted == jobs[id].source.revision
        then jobs[id].(phase := Queued, stage := None) else jobs[id];
    }

    method ForgetSource(source: Id, now: Time)
      modifies this
      ensures View() == Forget(old(View()), source, now)
    {
      hide Purged, Links, Reach, ForgottenJobs, RequeuedJobs, CancelledJobs;
      if IsTombstoned(View(), source) { return; }
      ghost var begin := View();
      heads := heads[source := if source in heads then heads[source].(tombstone := Some(now)) else Head(0, None, Some(now))];
      CancelJobs(source, now);
      var affected := Recursive(Links(Records()), {source});
      PurgeRecords(affected);
      RequeueAffected(source, affected);
      sources := map ref | ref in sources && ref.id != source :: sources[ref];
      version := version + 1;
      JobsInTwoUpdates(begin, heads, source, affected, now);
    }

    // ---- publish, statement by statement ----

    method TakeIdentity(key: Key, source: Ref) returns (ok: bool)
      requires !key.kind.EntityKind?
      modifies this`identities, this`recordSources, this`supports
      ensures ok <==> Free(old(Records()), key, source)
      ensures !ok ==> Records() == old(Records())
      ensures ok ==> identities == (if key in old(identities) then old(identities) else old(identities)[key := source])
      ensures ok ==> recordSources == set r | r in old(recordSources) && Key(r.kind, r.id) != key
      ensures ok ==> supports == set e | e in old(supports) && Key(MemoryKind, e.0) != key
    {
      if (key in identities && identities[key] != source) || Present(Records(), key.kind, key.id) { return false; }
      recordSources := set r | r in recordSources && Key(r.kind, r.id) != key;
      supports := set e | e in supports && Key(MemoryKind, e.0) != key;
      if key !in identities { identities := identities[key := source]; }
      ok := true;
    }

    method TakeIdentities(keys: seq<Key>, source: Ref) returns (ok: bool)
      requires forall k | k in keys :: !k.kind.EntityKind?
      modifies this`identities, this`recordSources, this`supports
      ensures ok <==> forall k | k in keys :: Free(old(Records()), k, source)
      ensures ok ==> Records() == Taken(old(Records()), keys, source)
    {
      ghost var g := Records();
      for i := 0 to |keys|
        invariant Records() == Taken(g, keys[..i], source)
        invariant forall k | k in keys[..i] :: Free(g, k, source)
      {
        assert keys[..i + 1] == keys[..i] + [keys[i]];
        TakenFree(g, keys[..i], keys[i], source);
        assert keys[i] in keys;
        var free := TakeIdentity(keys[i], source);
        if !free { return false; }
        TakenNext(g, keys[..i], keys[i], source, Records());
        hide Taken, Free;
      }
      assert keys[..|keys|] == keys;
      ok := true;
    }

    method CloseSource(source: Id, now: Time)
      modifies this`memories, this`assertions, this`chunks
      ensures memories == RetireIn(old(memories), Owned(old(identities), MemoryKind, source), now)
      ensures assertions == CloseIn(old(assertions), CitingAssertions(old(assertions), old(recordSources), source), now)
      ensures chunks == KeptChunks(old(chunks), source)
    {
      memories := RetireIn(memories, Owned(identities, MemoryKind, source), now);
      assertions := CloseIn(assertions, CitingAssertions(assertions, recordSources, source), now);
      chunks := KeptChunks(chunks, source);
    }

    /** `retire` sets the end of the listed records whatever it was. */
    method Retire(stage: Stage, now: Time)
      modifies this`memories, this`assertions
      ensures memories == EndIn(old(memories), stage.retireMemories, now)
      ensures assertions == EndAssertionsIn(old(assertions), stage.retireAssertions, now)
    {
      memories := EndIn(memories, stage.retireMemories, now);
      assertions := EndAssertionsIn(assertions, stage.retireAssertions, now);
    }

    method CloseDependents(source: Id, retired: set<Id>, now: Time)
      modifies this`memories
      ensures memories == RetireIn(old(memories), Reach(Inferences(old(supports)), Owned(old(identities), MemoryKind, source) + retired), now)
    {
      var closed := Recursive(Inferences(supports), Owned(identities, MemoryKind, source) + retired);
      memories := RetireIn(memories, closed, now);
    }

    /** One stale memory: its rewritten payload and rows, or its end when nothing is left of it. */
    method StripOne(id: Id, source: Ref, now: Time) returns (gone: bool)
      requires id in memories && Active(memories[id])
      modifies this`memories, this`recordSources
      ensures gone <==> Strip(old(memories)[id], source).None?
      ensures gone ==> memories == old(memories)[id := old(memories)[id].(knownTo := Some(now))] && recordSources == old(recordSources)
      ensures !gone ==> memories == old(memories)[id := Strip(old(memories)[id], source).value]
      ensures !gone ==> recordSources == set r | r in old(recordSources) && !(r.kind.MemoryKind? && r.id == id && Stale(source, r.source))
    {
      var kept := Strip(memories[id], source);
      if kept.None? {
        memories := memories[id := memories[id].(knownTo := Some(now))];
        return true;
      }
      memories := memories[id := kept.value];
      recordSources := set r | r in recordSources && !(r.kind.MemoryKind? && r.id == id && Stale(source, r.source));
      gone := false;
    }

    method StripRevisions(source: Ref, now: Time) returns (emptied: set<Id>)
      modifies this`memories, this`recordSources
      ensures memories == StripIn(old(memories), old(recordSources), source, now)
      ensures recordSources == StripRows(old(memories), old(recordSources), source)
      ensures emptied == Emptied(old(memories), old(recordSources), source)
    {
      ghost var was, rows := memories, recordSources;
      var stale := StaleMemories(memories, recordSources, source);
      var todo := stale;
      emptied := {};
      while todo != {}
        invariant todo <= stale && memories.Keys == was.Keys
        invariant forall id | id in was :: memories[id] == if id in stale - todo then Stripped(was[id], source, now) else was[id]
        invariant forall r :: r in recordSources <==>
          r in rows && !(r.kind.MemoryKind? && r.id in stale - todo && Strip(was[r.id], source).Some? && Stale(source, r.source))
        invariant forall id :: id in emptied <==> id in stale - todo && Strip(was[id], source).None?
      {
        hide StaleMemories, Strip;
        var id := Least(todo);
        assert memories[id] == was[id];
        var gone := StripOne(id, source, now);
        if gone { emptied := emptied + {id}; }
        todo := todo - {id};
      }
      hide Strip;
    }

    method InsertEntity(e: Entity) returns (ok: bool)
      modifies this`entities, this`recordSources
      ensures ok <==> Agrees(old(entities), e)
      ensures ok ==> entities == old(entities)[e.id := MergeEntity(old(entities), e)]
      ensures ok ==> recordSources == (set r | r in old(recordSources) && !(r.kind.EntityKind? && r.id == e.id))
                                      + RowsOf(EntityKind, e.id, MergeEntity(old(entities), e).provenance)
    {
      if e.id in entities && (entities[e.id].name != e.name || entities[e.id].kind != e.kind) { return false; }
      var merged := MergeEntity(entities, e);
      entities := entities[e.id := merged];
      recordSources := set r | r in recordSources && !(r.kind.EntityKind? && r.id == e.id);
      recordSources := recordSources + RowsOf(EntityKind, e.id, merged.provenance);
      ok := true;
    }

    method InsertEntities(staged: seq<Entity>) returns (ok: bool)
      requires forall i, j | 0 <= i < j < |staged| :: staged[i].id != staged[j].id
      modifies this`entities, this`recordSources
      ensures ok <==> forall e | e in staged :: Agrees(old(entities), e)
      ensures ok ==> entities == old(entities) + MergedEntities(old(entities), staged)
      ensures ok ==> recordSources == SwappedRows(old(recordSources), MergedEntities(old(entities), staged))
    {
      ghost var was, rows := entities, recordSources;
      NoneStaged(was, rows);
      for i := 0 to |staged|
        invariant entities == was + MergedEntities(was, staged[..i])
        invariant recordSources == SwappedRows(rows, MergedEntities(was, staged[..i]))
        invariant forall j | 0 <= j < i :: Agrees(was, staged[j])
      {
        hide SwappedRows, Agrees;
        EntityNext(was, rows, staged, i, entities);
        var agrees := InsertEntity(staged[i]);
        if !agrees {
          assert staged[i] in staged;
          return false;
        }
      }
      assert staged[..|staged|] == staged;
      ok := true;
    }

    method InsertMemory(m: Memory, now: Time)
      modifies this`memories, this`recordSources, this`supports
      ensures memories == old(memories)[m.id := StoredMemory(m, now)]
      ensures recordSources == old(recordSources) + RowsOf(MemoryKind, m.id, m.provenance)
      ensures supports == old(supports) + SupportsOf(m)
    {
      memories := memories[m.id := m.(knownFrom := now, knownTo := None)];
      recordSources := recordSources + RowsOf(MemoryKind, m.id, m.provenance);
      supports := supports + SupportsOf(m);
    }

    method InsertMemories(staged: seq<Memory>, now: Time)
      modifies this`memories, this`recordSources, this`supports
      ensures memories == old(memories) + StoredMemories(staged, now)
      ensures recordSources == old(recordSources) + MemoryRows(staged)
      ensures supports == old(supports) + StagedSupports(staged)
    {
      hide *;
      ghost var was, rows, ties := memories, recordSources, supports;
      NoMemories(was, rows, ties, staged, now);
      for i := 0 to |staged|
        invariant memories == was + StoredMemories(staged[..i], now)
        invariant recordSources == rows + MemoryRows(staged[..i])
        invariant supports == ties + StagedSupports(staged[..i])
      {
        var m := staged[i];
        MemoryNext(staged, i, now);
        PlusUpdate(was, StoredMemories(staged[..i], now), m.id, StoredMemory(m, now));
        InsertMemory(m, now);
      }
      assert staged[..|staged|] == staged;
    }

    method InsertChunk(c: Chunk) returns (ok: bool)
      modifies this`chunks
      ensures ok <==> Exact(c)
      ensures ok ==> chunks == old(chunks)[c.id := c]
    {
      if c.text != c.provenance.quote { return false; }
      chunks := chunks[c.id := c];
      ok := true;
    }

    method InsertChunks(staged: seq<Chunk>) returns (ok: bool)
      modifies this`chunks
      ensures ok <==> AllExact(staged)
      ensures ok ==> chunks == old(chunks) + StoredChunks(staged)
    {
      ghost var was := chunks;
      for i := 0 to |staged|
        invariant chunks == was + StoredChunks(staged[..i])
        invariant AllExact(staged[..i])
      {
        hide *;
        ChunkNext(staged, i);
        PlusUpdate(was, StoredChunks(staged[..i]), staged[i].id, staged[i]);
        var exact := InsertChunk(staged[i]);
        if !exact { return false; }
      }
      assert staged[..|staged|] == staged;
      ok := true;
    }

    method InsertAssertion(a: Assertion, now: Time)
      modifies this`assertions, this`recordSources
      ensures assertions == old(assertions)[a.id := StoredAssertion(a, now)]
      ensures recordSources == old(recordSources) + RowsOf(AssertionKind, a.id, a.provenance)
    {
      assertions := assertions[a.id := a.(knownFrom := now, knownTo := None)];
      recordSources := recordSources + RowsOf(AssertionKind, a.id, a.provenance);
    }

    method InsertAssertions(staged: seq<Assertion>, now: Time)
      modifies this`assertions, this`recordSources
      ensures assertions == old(assertions) + StoredAssertions(staged, now)
      ensures recordSources == old(recordSources) + AssertionRows(staged)
    {
      hide *;
      ghost var was, rows := assertions, recordSources;
      NoAssertions(was, rows, staged, now);
      for i := 0 to |staged|
        invariant assertions == was + StoredAssertions(staged[..i], now)
        invariant recordSources == rows + AssertionRows(staged[..i])
      {
        var a := staged[i];
        AssertionNext(staged, i, now);
        PlusUpdate(was, StoredAssertions(staged[..i], now), a.id, StoredAssertion(a, now));
        InsertAssertion(a, now);
      }
      assert staged[..|staged|] == staged;
    }

    method CorroborateMemory(c: Corroboration) returns (ok: bool)
      modifies this`memories, this`recordSources
      ensures ok <==> c.memory in old(memories) && Active(old(memories)[c.memory])
      ensures ok ==> memories == old(memories)[c.memory := Corroborate(old(memories)[c.memory], c)]
      ensures ok ==> recordSources == old(recordSources) + RowsOf(MemoryKind, c.memory, c.provenance)
    {
      if c.memory !in memories || !Active(memories[c.memory]) { return false; }
      memories := memories[c.memory := Corroborate(memories[c.memory], c)];
      recordSources := recordSources + RowsOf(MemoryKind, c.memory, c.provenance);
      ok := true;
    }

    method CorroborateMemories(cs: seq<Corroboration>) returns (ok: bool)
      modifies this`memories, this`recordSources
      ensures ok <==> CorroborationsHold(old(memories), cs)
      ensures ok ==> memories == CorroborateAll(old(memories), cs)
      ensures ok ==> recordSources == old(recordSources) + CorroborationRows(cs)
    {
      ghost var was, rows := memories, recordSources;
      for i := 0 to |cs|
        invariant CorroborationsHold(was, cs[..i])
        invariant memories == CorroborateAll(was, cs[..i])
        invariant recordSources == rows + CorroborationRows(cs[..i])
      {
        hide *;
        CorroborationNext(was, cs, i);
        var restated := CorroborateMemory(cs[i]);
        if !restated { return false; }
      }
      assert cs[..|cs|] == cs;
      ok := true;
    }

    /** Everything a publication retires, strips and closes. */
    method ReplaceStored(stage: Stage, source: Ref, now: Time)
      requires RetiresActive(Records(), stage)
      modifies this`memories, this`assertions, this`chunks, this`recordSources
      ensures memories == Survivors(old(Records()), stage, source, now)
      ensures assertions == ClosedAssertions(old(Records()), stage, source, now)
      ensures chunks == KeptChunks(old(chunks), source.id)
      ensures recordSources == KeptRowsAfter(old(Records()), stage, source, now)
    {
      hide *;
      ClosingSteps(Records(), stage, source, now);
      StrippingSteps(Records(), stage, source, now);
      RecordsAre();
      CloseSource(source.id, now);
      Retire(stage, now);
      CloseDependents(source.id, (set id | id in stage.retireMemories), now);
      var emptied := StripRevisions(source, now);
      if emptied != {} { CloseDependents(source.id, emptied, now); }
    }

    /** The graph is the tables' current contents. */
    lemma RecordsAre()
      ensures var g := Records();
        && g.memories == memories && g.chunks == chunks && g.entities == entities && g.assertions == assertions
        && g.recordSources == recordSources && g.supports == supports && g.identities == identities
        && g == Graph(memories, chunks, entities, assertions, recordSources, supports, identities)
    {
    }

    /** Everything it inserts; a conflict stops it part way. */
    method InsertStaged(stage: Stage, now: Time) returns (r: Result<()>)
      requires forall i, j | 0 <= i < j < |stage.entities| :: stage.entities[i].id != stage.entities[j].id
      modifies this`memories, this`assertions, this`chunks, this`recordSources, this`entities, this`supports
      ensures r == match InsertRefusal(old(Records()), stage, now) case Some(reason) => Err(reason) case None => Ok(())
      ensures r.Ok? ==> Records() == Inserted(old(Records()), stage, now)
    {
      hide *;
      ghost var g := Records();
      RecordsAre();
      InsertionsAre(g, stage, now);
      var agree := InsertEntities(stage.entities);
      if !agree { return Err(Conflict); }
      InsertMemories(stage.memories, now);
      var exact := InsertChunks(stage.chunks);
      if !exact { return Err(Invalid); }
      InsertAssertions(stage.assertions, now);
      var restated := CorroborateMemories(stage.corroborations);
      if !restated { return Err(Conflict); }
      RecordsAre();
      r := Ok(());
    }

    /** The writes of a publication whose stage was accepted. */
    method WriteExtraction(job: Job, stage: Stage, now: Time) returns (r: Result<()>)
      requires forall i, j | 0 <= i < j < |stage.entities| :: stage.entities[i].id != stage.entities[j].id
      requires RetiresActive(Records(), stage) && job.source.id in heads
      modifies this
      ensures r == match WriteRefusal(old(Records()), job.source, stage, now) case Some(reason) => Err(reason) case None => Ok(())
      ensures r.Ok? ==>
        && version == old(version) + 1
        && heads == old(heads)[job.source.id := old(heads)[job.source.id].(published := Some(job.source.revision))]
        && sources == old(sources)
        && jobs == old(jobs)[job.id := job.(phase := Complete(now))]
        && Records() == Inserted(Cleared(Prepared(old(Records()), stage, job.source), stage, job.source, now), stage, now)
    {
      hide *;
      ghost var g := Records();
      KeysListed(g, stage, job.source);
      WriteSteps(g, stage, job.source, now);
      RecordsAre();
      var free := TakeIdentities(KeyList(stage), job.source);
      if !free { return Err(Conflict); }
      RecordsAre();
      ReplaceStored(stage, job.source, now);
      RecordsAre();
      assert Records() == Cleared(Prepared(g, stage, job.source), stage, job.source, now);
      r := InsertStaged(stage, now);
      if r.Err? { return; }
      RecordsAre();
      version := version + 1;
      heads := heads[job.source.id := heads[job.source.id].(published := Some(job.source.revision))];
      jobs := jobs[job.id := job.(phase := Complete(now))];
      RecordsAre();
    }

    method PublishExtraction(lease: Lease) returns (r: Result<()>)
      modifies this
      ensures r == Answer(Publish(old(View()), lease)) && View() == Commit(old(View()), Publish(old(View()), lease))
    {
      var begin := View();
      if lease.jobId in jobs && jobs[lease.jobId].phase.Complete? { return Ok(()); }
      var leased := Leased(lease);
      if leased.Err? { return Err(leased.reason); }
      PublishIs(begin, lease);
      var job := leased.value;
      r := PublishLeased(job, lease.now);
      hide Publish, PublishRefusal;
    }

    method PublishLeased(job: Job, now: Time) returns (r: Result<()>)
      requires job.source.id in heads
      modifies this
      ensures r == match PublishRefusal(old(View()), job, now) case Some(reason) => Err(reason) case None => Ok(())
      ensures r.Err? ==> View() == old(View())
      ensures r.Ok? ==> job.stage.Some? && IsPublished(old(View()), job, job.stage.value, now, View())
    {
      hide *;
      var begin := View();
      ViewIs();
      PublishChecks(begin, job, now);
      if job.stage.None? { return Err(Conflict); }
      var stage := job.stage.value;
      var refusal := StageRefusal(begin, stage);
      if refusal.Some? { return Err(refusal.value); }
      if CitesEarlier(stage, job.source) { return Err(Invalid); }
      if exists c | c in stage.corroborations :: c.mention != job.source { return Err(Invalid); }
      AcceptedStage(begin, stage);
      WritesAreThePublication(begin, job, stage, now);
      r := WriteExtraction(job, stage, now);
      if r.Err? {
        Rollback(begin);
      } else {
        ViewIs();
        WrittenIsPublished(begin, job, stage, now, View());
      }
    }

    lemma ViewIs()
      ensures View() == Tables(version, heads, sources, jobs, Records())
    {
    }
  }

  function CancelledJobs(jobs: map<Id, Job>, source: Id, now: Time): map<Id, Job> {
    map id | id in jobs ::
      if jobs[id].source.id == source && !jobs[id].phase.Cancelled? then jobs[id].(phase := Cancelled(now), stage := None) else jobs[id]
  }

  /** The rows left once the memories and assertions are purged. */
  ghost predicate DerivedRows(g: Graph, affected: set<Id>, rows: set<Row>) {
    forall row :: row in rows <==>
      && row in g.recordSources
      && !(row.kind.MemoryKind? && row.id in g.memories && RestsOn(g, MemoryKind, row.id, affected))
      && !(row.kind.AssertionKind? && row.id in g.assertions && RestsOn(g, AssertionKind, row.id, affected))
  }

  lemma PurgedEntities(g: Graph, affected: set<Id>, entityIds: set<Id>, rows: set<Row>)
    requires entityIds == set row | row in g.recordSources && row.kind.EntityKind? && row.source.id in affected :: row.id
    requires DerivedRows(g, affected, rows)
    ensures g.entities - entityIds == Purged(g, affected).entities
    ensures (set row | row in rows && !(row.kind.EntityKind? && row.id in entityIds)) == Purged(g, affected).recordSources
    ensures Purged(g, affected).identities == g.identities
  {
    hide RestsOn;
    assert forall id :: id in entityIds <==> CitesAny(g, EntityKind, id, affected);
  }

  lemma PurgedChunks(g: Graph, other: Graph, affected: set<Id>)
    requires g.chunks == other.chunks && g.identities == other.identities
    ensures Purged(other, affected).chunks == Purged(g, affected).chunks
  {
    assert forall id | id in g.chunks :: ChunkRestsOn(other, id, affected) == ChunkRestsOn(g, id, affected);
  }

  function RequeuedJobs(jobs: map<Id, Job>, heads: map<Id, Head>, source: Id, affected: set<Id>): map<Id, Job> {
    map id | id in jobs ::
      if jobs[id].source.id != source && jobs[id].source.id in affected
         && jobs[id].source.id in heads && heads[jobs[id].source.id].tombstone.None?
         && heads[jobs[id].source.id].accepted == jobs[id].source.revision
      then jobs[id].(phase := Queued, stage := None) else jobs[id].(stage := None)
  }

  lemma JobsInTwoUpdates(begin: Tables, heads: map<Id, Head>, source: Id, affected: set<Id>, now: Time)
    requires source in heads && heads == begin.heads[source := heads[source]]
    ensures RequeuedJobs(CancelledJobs(begin.jobs, source, now), heads, source, affected) == ForgottenJobs(begin, source, affected, now)
  {
    var left := RequeuedJobs(CancelledJobs(begin.jobs, source, now), heads, source, affected);
    var right := ForgottenJobs(begin, source, affected, now);
    forall id | id in begin.jobs ensures left[id] == right[id] {
    }
  }

  /** Whether a staged identity is new, or was this revision's and holds no record now. */
  predicate Free(g: Graph, key: Key, source: Ref) {
    (key in g.identities ==> g.identities[key] == source) && !Present(g, key.kind, key.id)
  }

  /** The graph once the listed identities are taken. */
  function Taken(g: Graph, keys: seq<Key>, source: Ref): Graph {
    g.(identities := TakenOwners(g.identities, keys, source), recordSources := FreeRows(g.recordSources, keys), supports := FreeSupports(g.supports, keys))
  }

  function TakenOwners(identities: map<Key, Ref>, keys: seq<Key>, source: Ref): map<Key, Ref> {
    identities + map k | k in keys && k !in identities :: source
  }

  function FreeRows(rows: set<Row>, keys: seq<Key>): set<Row> {
    set r | r in rows && Key(r.kind, r.id) !in keys
  }

  function FreeSupports(supports: set<(Id, Id)>, keys: seq<Key>): set<(Id, Id)> {
    set e | e in supports && Key(MemoryKind, e.0) !in keys
  }

  lemma OwnersNext(identities: map<Key, Ref>, keys: seq<Key>, key: Key, source: Ref)
    ensures var was := TakenOwners(identities, keys, source);
      TakenOwners(identities, keys + [key], source) == if key in was then was else was[key := source]
  {
  }

  lemma RowsNext(rows: set<Row>, keys: seq<Key>, key: Key)
    ensures FreeRows(rows, keys + [key]) == set r | r in FreeRows(rows, keys) && Key(r.kind, r.id) != key
  {
  }

  lemma SupportsNext(supports: set<(Id, Id)>, keys: seq<Key>, key: Key)
    ensures FreeSupports(supports, keys + [key]) == set e | e in FreeSupports(supports, keys) && Key(MemoryKind, e.0) != key
  {
  }

  lemma TakenFree(g: Graph, keys: seq<Key>, key: Key, source: Ref)
    ensures Free(Taken(g, keys, source), key, source) <==> Free(g, key, source)
  {
  }

  lemma TakenNext(g: Graph, keys: seq<Key>, key: Key, source: Ref, after: Graph)
    requires var was := Taken(g, keys, source);
      after == was.(identities := if key in was.identities then was.identities else was.identities[key := source],
                    recordSources := (set r | r in was.recordSources && Key(r.kind, r.id) != key),
                    supports := (set e | e in was.supports && Key(MemoryKind, e.0) != key))
    ensures after == Taken(g, keys + [key], source)
  {
    hide TakenOwners, FreeRows, FreeSupports;
    OwnersNext(g.identities, keys, key, source);
    RowsNext(g.recordSources, keys, key);
    SupportsNext(g.supports, keys, key);
  }

  /** What `StripRevisions` makes of one stale memory. */
  function Stripped(m: Memory, source: Ref, now: Time): Memory {
    match Strip(m, source)
    case None => m.(knownTo := Some(now))
    case Some(kept) => kept
  }

  function CitingAssertions(assertions: map<Id, Assertion>, rows: set<Row>, source: Id): set<Id> {
    set id | id in assertions && CitesByRow(rows, AssertionKind, id, source)
  }

  function CloseIn(assertions: map<Id, Assertion>, ids: set<Id>, now: Time): map<Id, Assertion> {
    map id | id in assertions ::
      if id in ids && ActiveAssertion(assertions[id]) then assertions[id].(knownTo := Some(now)) else assertions[id]
  }

  function EndIn(memories: map<Id, Memory>, ids: seq<Id>, now: Time): map<Id, Memory> {
    map id | id in memories :: if id in ids then memories[id].(knownTo := Some(now)) else memories[id]
  }

  function EndAssertionsIn(assertions: map<Id, Assertion>, ids: seq<Id>, now: Time): map<Id, Assertion> {
    map id | id in assertions :: if id in ids then assertions[id].(knownTo := Some(now)) else assertions[id]
  }

  /** The chunk reads as its span's quote does. */
  predicate Exact(c: Chunk) { c.text == c.provenance.quote }

  predicate Agrees(entities: map<Id, Entity>, e: Entity) {
    e.id in entities ==> entities[e.id].name == e.name && entities[e.id].kind == e.kind
  }

  /** The rows with those of the merged entities in place of what they had. */
  function SwappedRows(rows: set<Row>, merged: map<Id, Entity>): set<Row> {
    (set r | r in rows && !(r.kind.EntityKind? && r.id in merged)) + EntityRows(merged)
  }

  lemma MergedNext(entities: map<Id, Entity>, staged: seq<Entity>, i: nat)
    requires i < |staged|
    ensures MergedEntities(entities, staged[..i + 1]) == MergedEntities(entities, staged[..i])[staged[i].id := MergeEntity(entities, staged[i])]
  {
    KeyedNext(staged, (e: Entity) => e.id, i);
  }

  lemma SwappedNext(rows: set<Row>, merged: map<Id, Entity>, id: Id, e: Entity)
    requires id !in merged
    ensures SwappedRows(rows, merged[id := e]) ==
      (set r | r in SwappedRows(rows, merged) && !(r.kind.EntityKind? && r.id == id)) + RowsOf(EntityKind, id, e.provenance)
  {
  }

  lemma NoMemories(was: map<Id, Memory>, rows: set<Row>, ties: set<(Id, Id)>, staged: seq<Memory>, now: Time)
    ensures was + StoredMemories(staged[..0], now) == was
    ensures rows + MemoryRows(staged[..0]) == rows && ties + StagedSupports(staged[..0]) == ties
  {
  }

  lemma NoAssertions(was: map<Id, Assertion>, rows: set<Row>, staged: seq<Assertion>, now: Time)
    ensures was + StoredAssertions(staged[..0], now) == was && rows + AssertionRows(staged[..0]) == rows
  {
  }

  lemma NoneStaged(entities: map<Id, Entity>, rows: set<Row>)
    ensures MergedEntities(entities, []) == map[] && SwappedRows(rows, map[]) == rows
  {
  }

  lemma EntityNext(was: map<Id, Entity>, rows: set<Row>, staged: seq<Entity>, i: nat, entities: map<Id, Entity>)
    requires i < |staged| && forall i, j | 0 <= i < j < |staged| :: staged[i].id != staged[j].id
    requires entities == was + MergedEntities(was, staged[..i])
    ensures MergeEntity(entities, staged[i]) == MergeEntity(was, staged[i])
    ensures Agrees(entities, staged[i]) <==> Agrees(was, staged[i])
    ensures was + MergedEntities(was, staged[..i + 1]) == entities[staged[i].id := MergeEntity(was, staged[i])]
    ensures SwappedRows(rows, MergedEntities(was, staged[..i + 1])) ==
      (set r | r in SwappedRows(rows, MergedEntities(was, staged[..i])) && !(r.kind.EntityKind? && r.id == staged[i].id))
        + RowsOf(EntityKind, staged[i].id, MergeEntity(was, staged[i]).provenance)
  {
    var merged, e := MergedEntities(was, staged[..i]), MergeEntity(was, staged[i]);
    assert staged[i].id !in merged;
    MergedNext(was, staged, i);
    SwappedNext(rows, merged, staged[i].id, e);
    PlusUpdate(was, merged, staged[i].id, e);
  }

  function SupportsOf(m: Memory): set<(Id, Id)> { set s | s in Supports(m) :: (m.id, s) }

  lemma MemoryNext(staged: seq<Memory>, i: nat, now: Time)
    requires i < |staged|
    ensures StoredMemories(staged[..i + 1], now) == StoredMemories(staged[..i], now)[staged[i].id := StoredMemory(staged[i], now)]
    ensures MemoryRows(staged[..i + 1]) == MemoryRows(staged[..i]) + RowsOf(MemoryKind, staged[i].id, staged[i].provenance)
    ensures StagedSupports(staged[..i + 1]) == StagedSupports(staged[..i]) + SupportsOf(staged[i])
  {
    hide Keyed, MemoryRows, RowsOf, StagedSupports, SupportsOf;
    MemoryRowsNext(staged, i);
    KeyedNext(staged, (m: Memory) => m.id, i);
  }

  lemma MemoryRowsNext(staged: seq<Memory>, i: nat)
    requires i < |staged|
    ensures MemoryRows(staged[..i + 1]) == MemoryRows(staged[..i]) + RowsOf(MemoryKind, staged[i].id, staged[i].provenance)
    ensures StagedSupports(staged[..i + 1]) == StagedSupports(staged[..i]) + SupportsOf(staged[i])
  {
    assert staged[..i + 1] == staged[..i] + [staged[i]];
  }

  predicate AllExact(staged: seq<Chunk>) { forall c | c in staged :: Exact(c) }

  lemma ChunkNext(staged: seq<Chunk>, i: nat)
    requires i < |staged|
    ensures StoredChunks(staged[..i + 1]) == StoredChunks(staged[..i])[staged[i].id := staged[i]]
    ensures AllExact(staged[..i + 1]) <==> AllExact(staged[..i]) && Exact(staged[i])
    ensures AllExact(staged) ==> Exact(staged[i])
  {
    assert staged[..i + 1] == staged[..i] + [staged[i]];
    KeyedNext(staged, (c: Chunk) => c.id, i);
  }

  lemma AssertionNext(staged: seq<Assertion>, i: nat, now: Time)
    requires i < |staged|
    ensures StoredAssertions(staged[..i + 1], now) == StoredAssertions(staged[..i], now)[staged[i].id := StoredAssertion(staged[i], now)]
    ensures AssertionRows(staged[..i + 1]) == AssertionRows(staged[..i]) + RowsOf(AssertionKind, staged[i].id, staged[i].provenance)
  {
    hide Keyed, AssertionRows, RowsOf;
    AssertionRowsNext(staged, i);
    KeyedNext(staged, (a: Assertion) => a.id, i);
  }

  lemma AssertionRowsNext(staged: seq<Assertion>, i: nat)
    requires i < |staged|
    ensures AssertionRows(staged[..i + 1]) == AssertionRows(staged[..i]) + RowsOf(AssertionKind, staged[i].id, staged[i].provenance)
  {
    assert staged[..i + 1] == staged[..i] + [staged[i]];
  }

  lemma {:induction false} CorroborateAllActive(memories: map<Id, Memory>, cs: seq<Corroboration>, id: Id)
    requires id in memories && forall c | c in cs :: c.memory in memories
    ensures Active(CorroborateAll(memories, cs)[id]) <==> Active(memories[id])
  {
    CorroborateAllMeaning(memories, cs, id);
  }

  lemma CorroborationNext(memories: map<Id, Memory>, cs: seq<Corroboration>, i: nat)
    requires i < |cs| && CorroborationsHold(memories, cs[..i])
    ensures var c, now := cs[i], CorroborateAll(memories, cs[..i]);
      && (c.memory in now && Active(now[c.memory]) <==> CorroborationsHold(memories, cs[..i + 1]))
      && (CorroborationsHold(memories, cs) ==> CorroborationsHold(memories, cs[..i + 1]))
      && (CorroborationsHold(memories, cs[..i + 1]) ==>
            CorroborateAll(memories, cs[..i + 1]) == now[c.memory := Corroborate(now[c.memory], c)])
      && CorroborationRows(cs[..i + 1]) == CorroborationRows(cs[..i]) + RowsOf(MemoryKind, c.memory, c.provenance)
  {
    var c := cs[i];
    assert cs[..i + 1] == cs[..i] + [c] && cs[..i + 1][..i] == cs[..i];
    if c.memory in memories { CorroborateAllActive(memories, cs[..i], c.memory); }
  }

  // ---- how the statements compose ----

  predicate RetiresActive(g: Graph, stage: Stage) {
    && (forall id | id in stage.retireMemories :: id in g.memories && Active(g.memories[id]))
    && (forall id | id in stage.retireAssertions :: id in g.assertions && ActiveAssertion(g.assertions[id]))
  }

  function KeptRowsAfter(g: Graph, stage: Stage, source: Ref, now: Time): set<Row> {
    StripRows(RetireIn(g.memories, Replaced(g, stage, source), now), g.recordSources, source)
  }

  /** Three updates in a row, the middle one unguarded, end what the last one alone would. */
  lemma EndsOnce(memories: map<Id, Memory>, owned: set<Id>, explicit: seq<Id>, reached: set<Id>, now: Time)
    requires owned <= reached && forall id | id in explicit :: id in reached && id in memories && Active(memories[id])
    ensures RetireIn(EndIn(RetireIn(memories, owned, now), explicit, now), reached, now) == RetireIn(memories, reached, now)
  {
  }

  lemma AssertionsEndOnce(g: Graph, stage: Stage, source: Ref, now: Time)
    requires RetiresActive(g, stage)
    ensures EndAssertionsIn(CloseIn(g.assertions, CitingAssertions(g.assertions, g.recordSources, source.id), now), stage.retireAssertions, now)
              == ClosedAssertions(g, stage, source, now)
  {
  }

  /** Closing, retiring and following supports in turn is one retirement of everything they reach. */
  lemma ClosingSteps(g: Graph, stage: Stage, source: Ref, now: Time)
    requires RetiresActive(g, stage)
    ensures var owned := Owned(g.identities, MemoryKind, source.id);
      RetireIn(EndIn(RetireIn(g.memories, owned, now), stage.retireMemories, now),
               Reach(Inferences(g.supports), owned + (set id | id in stage.retireMemories)), now)
        == RetireIn(g.memories, Replaced(g, stage, source), now)
    ensures EndAssertionsIn(CloseIn(g.assertions, CitingAssertions(g.assertions, g.recordSources, source.id), now), stage.retireAssertions, now)
              == ClosedAssertions(g, stage, source, now)
  {
    AssertionsEndOnce(g, stage, source, now);
    EndsOnce(g.memories, Owned(g.identities, MemoryKind, source.id), stage.retireMemories, Replaced(g, stage, source), now);
    hide EndIn, RetireIn, CloseIn, EndAssertionsIn, ClosedAssertions;
  }

  lemma StrippingSteps(g: Graph, stage: Stage, source: Ref, now: Time)
    ensures var replaced := RetireIn(g.memories, Replaced(g, stage, source), now);
      var stripped, emptied := StripIn(replaced, g.recordSources, source, now), Emptied(replaced, g.recordSources, source);
      && Survivors(g, stage, source, now) ==
           (if emptied == {} then stripped
            else RetireIn(stripped, Reach(Inferences(g.supports), Owned(g.identities, MemoryKind, source.id) + emptied), now))
      && KeptRowsAfter(g, stage, source, now) == StripRows(replaced, g.recordSources, source)
  {
  }

  function KeyList(stage: Stage): (r: seq<Key>)
    ensures forall k | k in r :: !k.kind.EntityKind?
  {
    seq(|stage.memories|, i requires 0 <= i < |stage.memories| => Key(MemoryKind, stage.memories[i].id))
    + seq(|stage.chunks|, i requires 0 <= i < |stage.chunks| => Key(ChunkKind, stage.chunks[i].id))
    + seq(|stage.assertions|, i requires 0 <= i < |stage.assertions| => Key(AssertionKind, stage.assertions[i].id))
  }

  lemma KeysAre(stage: Stage, k: Key)
    ensures k in KeyList(stage) <==> k in StagedKeys(stage)
  {
    var ms := seq(|stage.memories|, i requires 0 <= i < |stage.memories| => Key(MemoryKind, stage.memories[i].id));
    var cs := seq(|stage.chunks|, i requires 0 <= i < |stage.chunks| => Key(ChunkKind, stage.chunks[i].id));
    var xs := seq(|stage.assertions|, i requires 0 <= i < |stage.assertions| => Key(AssertionKind, stage.assertions[i].id));
    assert KeyList(stage) == ms + cs + xs;
    assert k in KeyList(stage) <==> k in ms || k in cs || k in xs;
    if k in StagedKeys(stage) {
      match k.kind {
        case MemoryKind =>
          var i :| 0 <= i < |stage.memories| && stage.memories[i].id == k.id;
          assert ms[i] == k;
        case ChunkKind =>
          var i :| 0 <= i < |stage.chunks| && stage.chunks[i].id == k.id;
          assert cs[i] == k;
        case AssertionKind =>
          var i :| 0 <= i < |stage.assertions| && stage.assertions[i].id == k.id;
          assert xs[i] == k;
      }
    }
  }

  lemma TakenPrepared(g: Graph, keys: seq<Key>, stage: Stage, source: Ref)
    requires forall k :: k in keys <==> k in StagedKeys(stage)
    ensures Taken(g, keys, source) == Prepared(g, stage, source)
  {
    assert forall id :: id in StagedMemories(stage) <==> Key(MemoryKind, id) in StagedKeys(stage);
    hide StagedKeys;
  }

  lemma KeysListed(g: Graph, stage: Stage, source: Ref)
    ensures (forall k | k in KeyList(stage) :: Free(g, k, source)) <==> IdentitiesFree(g, stage, source)
    ensures Taken(g, KeyList(stage), source) == Prepared(g, stage, source)
  {
    hide KeyList, StagedKeys;
    forall k ensures k in KeyList(stage) <==> k in StagedKeys(stage) { KeysAre(stage, k); }
    TakenPrepared(g, KeyList(stage), stage, source);
    hide Taken, Prepared;
  }

  function InsertRefusal(g: Graph, stage: Stage, now: Time): Option<Reason> {
    if !EntitiesAgree(g.entities, stage) then Some(Conflict)
    else if !AllExact(stage.chunks) then Some(Invalid)
    else if !CorroborationsHold(g.memories + StoredMemories(stage.memories, now), stage.corroborations) then Some(Conflict)
    else None
  }

  function Inserted(g: Graph, stage: Stage, now: Time): Graph
    requires CorroborationsHold(g.memories + StoredMemories(stage.memories, now), stage.corroborations)
  {
    Graph(
      CorroborateAll(g.memories + StoredMemories(stage.memories, now), stage.corroborations),
      g.chunks + StoredChunks(stage.chunks),
      g.entities + MergedEntities(g.entities, stage.entities),
      g.assertions + StoredAssertions(stage.assertions, now),
      SwappedRows(g.recordSources, MergedEntities(g.entities, stage.entities))
        + MemoryRows(stage.memories) + AssertionRows(stage.assertions) + CorroborationRows(stage.corroborations),
      g.supports + StagedSupports(stage.memories),
      g.identities)
  }

  lemma InsertionsAre(g: Graph, stage: Stage, now: Time)
    ensures (forall e | e in stage.entities :: Agrees(g.entities, e)) <==> EntitiesAgree(g.entities, stage)
    ensures InsertRefusal(g, stage, now) ==
      if !EntitiesAgree(g.entities, stage) then Some(Conflict)
      else if !AllExact(stage.chunks) then Some(Invalid)
      else if !CorroborationsHold(g.memories + StoredMemories(stage.memories, now), stage.corroborations) then Some(Conflict)
      else None
    ensures InsertRefusal(g, stage, now).None? ==>
      Inserted(g, stage, now) == Graph(
        CorroborateAll(g.memories + StoredMemories(stage.memories, now), stage.corroborations),
        g.chunks + StoredChunks(stage.chunks),
        g.entities + MergedEntities(g.entities, stage.entities),
        g.assertions + StoredAssertions(stage.assertions, now),
        SwappedRows(g.recordSources, MergedEntities(g.entities, stage.entities))
          + MemoryRows(stage.memories) + AssertionRows(stage.assertions) + CorroborationRows(stage.corroborations),
        g.supports + StagedSupports(stage.memories),
        g.identities)
  {
    hide CorroborateAll, StoredMemories, StoredChunks, StoredAssertions, MergedEntities, SwappedRows,
      MemoryRows, AssertionRows, CorroborationRows, StagedSupports, AllExact, CorroborationsHold;
  }

  /** The graph once the source's earlier records are closed, stripped or dropped. */
  function Cleared(g: Graph, stage: Stage, source: Ref, now: Time): Graph {
    Graph(Survivors(g, stage, source, now), KeptChunks(g.chunks, source.id), g.entities, ClosedAssertions(g, stage, source, now),
          KeptRowsAfter(g, stage, source, now), g.supports, g.identities)
  }

  function WriteRefusal(g: Graph, source: Ref, stage: Stage, now: Time): Option<Reason> {
    if !IdentitiesFree(g, stage, source) then Some(Conflict)
    else InsertRefusal(Cleared(Prepared(g, stage, source), stage, source, now), stage, now)
  }

  lemma WriteSteps(g: Graph, stage: Stage, source: Ref, now: Time)
    requires RetiresActive(g, stage)
    ensures RetiresActive(Prepared(g, stage, source), stage)
    ensures WriteRefusal(g, source, stage, now) ==
      if !IdentitiesFree(g, stage, source) then Some(Conflict)
      else InsertRefusal(Cleared(Prepared(g, stage, source), stage, source, now), stage, now)
    ensures var p := Prepared(g, stage, source);
      Cleared(p, stage, source, now) ==
        Graph(Survivors(p, stage, source, now), KeptChunks(p.chunks, source.id), p.entities, ClosedAssertions(p, stage, source, now),
              KeptRowsAfter(p, stage, source, now), p.supports, p.identities)
  {
    hide Survivors, KeptChunks, ClosedAssertions, KeptRowsAfter, InsertRefusal, IdentitiesFree;
  }

  lemma RefusalsAgree(t: Tables, job: Job, stage: Stage, now: Time)
    requires job.stage == Some(stage) && StageRefusal(t, stage).None?
    requires !CitesEarlier(stage, job.source) && forall c | c in stage.corroborations :: c.mention == job.source
    ensures PublishRefusal(t, job, now) ==
      if !IdentitiesFree(t.graph, stage, job.source) then Some(Conflict)
      else if !EntitiesAgree(t.graph.entities, stage) then Some(Conflict)
      else if !AllExact(stage.chunks) then Some(Invalid)
      else if !CorroborationsHold(PublishedMemories(Prepared(t.graph, stage, job.source), stage, job.source, now), stage.corroborations)
      then Some(Conflict) else None
  {
    hide StageRefusal, CitesEarlier, IdentitiesFree, EntitiesAgree, CorroborationsHold, PublishedMemories, Prepared;
  }

  lemma ClearedMemories(g: Graph, stage: Stage, source: Ref, now: Time)
    ensures var p := Prepared(g, stage, source);
      && PublishedMemories(p, stage, source, now) == Cleared(p, stage, source, now).memories + StoredMemories(stage.memories, now)
      && Cleared(p, stage, source, now).entities == g.entities
  {
    hide Survivors, KeptChunks, ClosedAssertions, KeptRowsAfter, StoredMemories;
  }

  lemma InsertedIsPublished(p: Graph, stage: Stage, source: Ref, now: Time)
    requires CorroborationsHold(PublishedMemories(p, stage, source, now), stage.corroborations)
    requires PublishedMemories(p, stage, source, now) == Cleared(p, stage, source, now).memories + StoredMemories(stage.memories, now)
    ensures Inserted(Cleared(p, stage, source, now), stage, now) == PublishedGraph(p, source, stage, now)
  {
    hide Survivors, KeptChunks, ClosedAssertions, StoredMemories, StoredChunks, StoredAssertions, MergedEntities, CorroborateAll,
      MemoryRows, AssertionRows, CorroborationRows, EntityRows, StagedSupports, StripRows, RetireIn, Replaced, PublishedMemories, CorroborationsHold;
  }

  /** The writes in turn leave what the specification of a publication says, and stop where it refuses. */
  lemma WritesAreThePublication(t: Tables, job: Job, stage: Stage, now: Time)
    requires job.stage == Some(stage) && StageRefusal(t, stage).None?
    requires !CitesEarlier(stage, job.source) && forall c | c in stage.corroborations :: c.mention == job.source
    ensures WriteRefusal(t.graph, job.source, stage, now) == PublishRefusal(t, job, now)
    ensures PublishRefusal(t, job, now).None? ==>
              CorroborationsHold(PublishedMemories(Prepared(t.graph, stage, job.source), stage, job.source, now), stage.corroborations)
              && Inserted(Cleared(Prepared(t.graph, stage, job.source), stage, job.source, now), stage, now)
                   == PublishedGraph(Prepared(t.graph, stage, job.source), job.source, stage, now)
  {
    hide *;
    var p := Prepared(t.graph, stage, job.source);
    RefusalsAgree(t, job, stage, now);
    ClearedMemories(t.graph, stage, job.source, now);
    InsertionsAre(Cleared(p, stage, job.source, now), stage, now);
    WriteRefusalIs(t.graph, stage, job.source, now);
    if PublishRefusal(t, job, now).None? { InsertedIsPublished(p, stage, job.source, now); }
  }

  lemma WriteRefusalIs(g: Graph, stage: Stage, source: Ref, now: Time)
    ensures WriteRefusal(g, source, stage, now) ==
      if !IdentitiesFree(g, stage, source) then Some(Conflict)
      else InsertRefusal(Cleared(Prepared(g, stage, source), stage, source, now), stage, now)
  {
    hide InsertRefusal, Cleared, Prepared, IdentitiesFree;
  }

  lemma AcceptedStage(t: Tables, stage: Stage)
    requires StageRefusal(t, stage).None?
    ensures forall i, j | 0 <= i < j < |stage.entities| :: stage.entities[i].id != stage.entities[j].id
    ensures RetiresActive(t.graph, stage)
  {
  }

  predicate IsPublished(t: Tables, job: Job, stage: Stage, now: Time, after: Tables) {
    && job.source.id in t.heads
    && CorroborationsHold(PublishedMemories(Prepared(t.graph, stage, job.source), stage, job.source, now), stage.corroborations)
    && after == Published(t, job, stage, now)
  }

  lemma PublishIs(t: Tables, lease: Lease)
    requires lease.jobId in t.jobs && !t.jobs[lease.jobId].phase.Complete? && LeaseRefusal(t, lease).None?
    ensures var job := t.jobs[lease.jobId];
      match PublishRefusal(t, job, lease.now)
      case Some(reason) => Publish(t, lease) == Refused(reason)
      case None => forall after :: IsPublished(t, job, job.stage.value, lease.now, after) ==> Publish(t, lease) == Done((), after)
  {
    hide PublishedGraph, StageRefusal, IdentitiesFree;
  }

  lemma PublishChecks(t: Tables, job: Job, now: Time)
    ensures job.stage.None? ==> PublishRefusal(t, job, now) == Some(Conflict)
    ensures job.stage.Some? && StageRefusal(t, job.stage.value).Some? ==> PublishRefusal(t, job, now) == StageRefusal(t, job.stage.value)
    ensures job.stage.Some? && StageRefusal(t, job.stage.value).None? &&
            (CitesEarlier(job.stage.value, job.source) || exists c | c in job.stage.value.corroborations :: c.mention != job.source) ==>
              PublishRefusal(t, job, now) == Some(Invalid)
  {
    hide StageRefusal, CitesEarlier, IdentitiesFree, EntitiesAgree, CorroborationsHold;
  }

  lemma WrittenIsPublished(t: Tables, job: Job, stage: Stage, now: Time, after: Tables)
    requires job.source.id in t.heads
    requires CorroborationsHold(PublishedMemories(Prepared(t.graph, stage, job.source), stage, job.source, now), stage.corroborations)
    requires after.version == t.version + 1 && after.sources == t.sources
    requires after.heads == t.heads[job.source.id := t.heads[job.source.id].(published := Some(job.source.revision))]
    requires after.jobs == t.jobs[job.id := job.(phase := Complete(now))]
    requires after.graph == PublishedGraph(Prepared(t.graph, stage, job.source), job.source, stage, now)
    ensures IsPublished(t, job, stage, now, after)
  {
    hide PublishedGraph, Prepared, PublishedMemories, CorroborationsHold;
  }
}
