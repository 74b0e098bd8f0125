/** What holds in every state of every run of the store. */
module KnowledgeRuns {
  import opened Prelude
  import opened Closure
  import opened KnowledgeModel
  import opened KnowledgeTables
  import opened KnowledgeQueue
  import opened KnowledgeGraph
  import opened KnowledgePublish
  import opened KnowledgeLaws

  /** Every citation is of stored evidence, and every record's publisher is a live source. */
  ghost predicate Anchored(t: Tables) {
    && (forall kind, id, ref | Cites(t.graph, kind, id, ref) :: ref in t.sources)
    && (forall kind: Kind, id | !kind.EntityKind? && Present(t.graph, kind, id) && Key(kind, id) in t.graph.identities ::
          Untombstoned(t, t.graph.identities[Key(kind, id)].id))
  }

  ghost predicate RecordsInv(t: Tables) {
    GraphInv(t.graph) && Anchored(t) && Acyclic(t.graph.supports)
  }

  ghost predicate Sound(t: Tables) {
    QueueInv(t) && RecordsInv(t)
  }

  // ---- what one transaction may do ----

  /** Whether a transaction consumes the scope's version: an effective publication or forget. */
  predicate Consumes(t: Tables, op: Op) {
    match op
    case PublishOp(lease) => Publishes(t, lease)
    case ForgetOp(source, _) => !IsTombstoned(t, source)
    case _ => false
  }

  /** Nothing accepted, forgotten or stored is taken back, and the records change only with the version. */
  ghost predicate Onward(t: Tables, after: Tables) {
    && (forall s | s in t.heads ::
          && s in after.heads
          && t.heads[s].accepted <= after.heads[s].accepted
          && (t.heads[s].tombstone.Some? ==> after.heads[s].tombstone == t.heads[s].tombstone))
    && t.version <= after.version
    && (t.version == after.version ==> after.graph == t.graph)
  }

  /** A transaction that does not consume the version leaves the records alone. */
  lemma QueueStep(t: Tables, op: Op)
    requires !Consumes(t, op)
    ensures Step(t, op).version == t.version && Step(t, op).graph == t.graph
    ensures !op.EnqueueOp? ==> Step(t, op).heads == t.heads && Step(t, op).sources == t.sources
  {
    hide StageRefusal, PublishRefusal, Affected, Purged, NextJob, NextOrdinal, Recorded, Published;
  }

  lemma PublishStep(t: Tables, lease: Lease)
    requires Publishes(t, lease)
    ensures var job, after := t.jobs[lease.jobId], Commit(t, Publish(t, lease));
      && job.source.id in t.heads
      && after.version == t.version + 1
      && after.heads == t.heads[job.source.id := t.heads[job.source.id].(published := Some(job.source.revision))]
      && after.sources == t.sources
      && after.jobs == t.jobs[job.id := job.(phase := Complete(lease.now))]
  {
  }

  lemma EnqueueOnward(t: Tables, input: EnqueueInput)
    ensures Onward(t, Commit(t, Enqueue(t, input)))
  {
  }

  lemma PublishOnward(t: Tables, lease: Lease)
    ensures Onward(t, Commit(t, Publish(t, lease)))
  {
    if Publishes(t, lease) { PublishStep(t, lease); }
  }

  lemma ForgetOnward(t: Tables, source: Id, now: Time)
    ensures Onward(t, Forget(t, source, now))
  {
  }

  lemma QueueOnward(t: Tables, op: Op)
    requires !op.EnqueueOp? && !op.PublishOp? && !op.ForgetOp?
    ensures Onward(t, Step(t, op))
  {
    hide Step;
    QueueStep(t, op);
  }

  lemma StepOnward(t: Tables, op: Op)
    ensures Onward(t, Step(t, op))
  {
    hide Onward, Enqueue, Claim, Renew, PutStage, Publish, Fail, Retry, Requeue, Forget;
    match op
    case EnqueueOp(input) => EnqueueOnward(t, input);
    case PublishOp(lease) => PublishOnward(t, lease);
    case ForgetOp(source, now) => ForgetOnward(t, source, now);
    case _ => QueueOnward(t, op);
  }

  /** The records of a run stay put while only the queue changes. */
  lemma UnconsumedKeeps(t: Tables, op: Op)
    requires RecordsInv(t) && !Consumes(t, op)
    ensures RecordsInv(Step(t, op))
  {
    QueueStep(t, op);
    var after := Step(t, op);
    assert forall ref | ref in t.sources :: ref in after.sources;
    assert forall s | Untombstoned(t, s) :: Untombstoned(after, s);
  }

  // ---- publish ----

  /** What the checks have established of a stage the store publishes. */
  predicate Checked(g: Graph, stage: Stage, live: map<Ref, Source>, source: Ref) {
    var snapshot := Snapshot(stage.expectedVersion, g.memories, g.entities, g.assertions);
    && SpansGood(stage, live) && IdsDistinct(stage) && ProvenanceGiven(stage)
    && EntitiesKnown(stage, snapshot) && SupportsKnown(stage, snapshot) && RetiredPresent(stage, snapshot)
    && (forall m | m in stage.memories :: !Cyclic(stage, snapshot, m.id, {}))
    && !CitesEarlier(stage, source)
    && (forall c | c in stage.corroborations :: Refs(c.provenance) <= {source})
  }

  lemma AdmittedChecked(g: Graph, stage: Stage, live: map<Ref, Source>, source: Ref, now: Time)
    requires Admitted(g, stage, live, source, now)
    ensures Checked(g, stage, live, source)
  {
  }

  lemma UnrefusedAdmitted(t: Tables, job: Job, now: Time)
    requires PublishRefusal(t, job, now).None?
    ensures job.stage.Some? && job.stage.value.expectedVersion == t.version
    ensures Admitted(t.graph, job.stage.value, LiveSources(t), job.source, now)
  {
  }

  /** An effective publication stores the graph of its stage. */
  lemma PublishesAfter(t: Tables, lease: Lease, job: Job, stage: Stage)
    requires LeaseRefusal(t, lease).None? && PublishRefusal(t, t.jobs[lease.jobId], lease.now).None?
    requires job == t.jobs[lease.jobId] && job.stage == Some(stage)
    requires CorroborationsHold(PublishedMemories(Prepared(t.graph, stage, job.source), stage, job.source, lease.now), stage.corroborations)
    ensures Commit(t, Publish(t, lease)).graph == After(t.graph, stage, job.source, lease.now)
  {
  }

  lemma CitationsAfter(g: Graph, stage: Stage, live: map<Ref, Source>, source: Ref, now: Time, after: Graph, kind: Kind, id: Id, ref: Ref)
    requires Replaces(g, stage, source, now, after) && SpansGood(stage, live)
    requires Cites(after, kind, id, ref)
    ensures Cites(g, kind, id, ref) || ref in live
  {
    match kind {
      case MemoryKind =>
        if id in g.memories {
          assert MemoryAfter(g, stage, source, now, id, after.memories[id]);
        } else {
          var m :| m in stage.memories && m.id == id;
        }
      case ChunkKind =>
        if id !in g.chunks { assert after.chunks[id] in stage.chunks; }
      case EntityKind =>
        if id in StagedEntities(stage) {
          var e :| e in stage.entities && e.id == id;
          var s :| s in after.entities[id].provenance && s.source == ref;
          if s !in e.provenance { assert s in g.entities[id].provenance; }
        }
      case AssertionKind =>
        if id in g.assertions {
          assert after.assertions[id].provenance == g.assertions[id].provenance;
        } else {
          var a :| a in stage.assertions && a.id == id;
          assert after.assertions[id] == StoredAssertion(a, now);
        }
    }
  }

  lemma PublishKeepsCitations(t: Tables, stage: Stage, source: Ref, now: Time, after: Tables)
    requires Anchored(t) && Replaces(t.graph, stage, source, now, after.graph) && SpansGood(stage, LiveSources(t))
    requires after.sources == t.sources
    ensures forall kind, id, ref | Cites(after.graph, kind, id, ref) :: ref in after.sources
  {
    forall kind, id, ref | Cites(after.graph, kind, id, ref) ensures ref in after.sources {
      CitationsAfter(t.graph, stage, LiveSources(t), source, now, after.graph, kind, id, ref);
    }
  }

  lemma OwnerAfter(g: Graph, stage: Stage, source: Ref, now: Time, after: Graph, kind: Kind, id: Id)
    requires OwnersKnown(g) && Replaces(g, stage, source, now, after) && !kind.EntityKind? && Present(after, kind, id)
    ensures Key(kind, id) in after.identities
    ensures after.identities[Key(kind, id)] == source || (Present(g, kind, id) && after.identities[Key(kind, id)] == g.identities[Key(kind, id)])
  {
    assert Present(g, kind, id) || Key(kind, id) in StagedKeys(stage);
  }

  lemma PublishKeepsAnchors(t: Tables, stage: Stage, source: Ref, now: Time, after: Tables)
    requires Anchored(t) && OwnersKnown(t.graph) && Replaces(t.graph, stage, source, now, after.graph) && SpansGood(stage, LiveSources(t))
    requires after.sources == t.sources && Untombstoned(t, source.id)
    requires forall s :: Untombstoned(after, s) <==> Untombstoned(t, s)
    ensures Anchored(after)
  {
    PublishKeepsCitations(t, stage, source, now, after);
    forall kind: Kind, id | !kind.EntityKind? && Present(after.graph, kind, id) && Key(kind, id) in after.graph.identities
      ensures Untombstoned(after, after.graph.identities[Key(kind, id)].id)
    {
      OwnerAfter(t.graph, stage, source, now, after.graph, kind, id);
    }
  }

  lemma AdmittedMeaning(g: Graph, stage: Stage, live: map<Ref, Source>, source: Ref, now: Time)
    requires GraphInv(g) && Admitted(g, stage, live, source, now)
    ensures Replaces(g, stage, source, now, After(g, stage, source, now))
  {
    AdmittedPublishable(g, stage, live, source, now);
    PublicationMeaning(g, stage, source, now);
  }

  /** What an effective publication does, in the terms of `KnowledgePublish`. */
  ghost predicate PublishesAs(t: Tables, stage: Stage, source: Ref, now: Time, after: Tables) {
    && Checked(t.graph, stage, LiveSources(t), source)
    && stage.expectedVersion == t.version
    && Untombstoned(t, source.id)
    && after.sources == t.sources
    && after.heads == t.heads[source.id := t.heads[source.id].(published := Some(source.revision))]
    && Replaces(t.graph, stage, source, now, after.graph)
  }

  lemma AdmittedReplaces(g: Graph, stage: Stage, live: map<Ref, Source>, source: Ref, now: Time, after: Graph)
    requires GraphInv(g) && Admitted(g, stage, live, source, now) && after == After(g, stage, source, now)
    ensures Checked(g, stage, live, source) && Replaces(g, stage, source, now, after)
  {
    AdmittedChecked(g, stage, live, source, now);
    AdmittedMeaning(g, stage, live, source, now);
  }

  lemma PublishesGraph(t: Tables, lease: Lease, job: Job, stage: Stage, after: Graph)
    requires GraphInv(t.graph) && Publishes(t, lease)
    requires job == t.jobs[lease.jobId] && job.stage == Some(stage) && after == Commit(t, Publish(t, lease)).graph
    ensures Checked(t.graph, stage, LiveSources(t), job.source) && Replaces(t.graph, stage, job.source, lease.now, after)
  {
    UnrefusedAdmitted(t, job, lease.now);
    PublishesAfter(t, lease, job, stage);
    AdmittedReplaces(t.graph, stage, LiveSources(t), job.source, lease.now, after);
  }

  lemma PublishesStage(t: Tables, lease: Lease)
    requires Publishes(t, lease)
    ensures t.jobs[lease.jobId].stage.Some? && t.jobs[lease.jobId].stage.value.expectedVersion == t.version
    ensures Untombstoned(t, t.jobs[lease.jobId].source.id)
  {
  }

  lemma PublishesMeaning(t: Tables, lease: Lease, after: Tables)
    requires GraphInv(t.graph) && Publishes(t, lease) && after == Commit(t, Publish(t, lease))
    ensures var job := t.jobs[lease.jobId]; job.stage.Some? && PublishesAs(t, job.stage.value, job.source, lease.now, after)
  {
    PublishStep(t, lease);
    PublishesStage(t, lease);
    PublishesGraph(t, lease, t.jobs[lease.jobId], t.jobs[lease.jobId].stage.value, after.graph);
  }

  lemma PublishKeepsRecords(t: Tables, lease: Lease)
    requires RecordsInv(t) && Publishes(t, lease)
    ensures RecordsInv(Commit(t, Publish(t, lease)))
  {
    var job := t.jobs[lease.jobId];
    PublishesMeaning(t, lease, Commit(t, Publish(t, lease)));
    PublishedRecords(t, job.stage.value, job.source, lease.now, Commit(t, Publish(t, lease)));
  }

  lemma PublishedRecords(t: Tables, stage: Stage, source: Ref, now: Time, after: Tables)
    requires RecordsInv(t) && PublishesAs(t, stage, source, now, after)
    ensures RecordsInv(after)
  {
    var snapshot := Snapshot(stage.expectedVersion, t.graph.memories, t.graph.entities, t.graph.assertions);
    PublishKeepsAnchors(t, stage, source, now, after);
    PublishedSound(t.graph, stage, source, now, after.graph, snapshot);
    AcyclicKept(t.graph, stage, snapshot);
  }

  // ---- forget ----

  lemma AffectedClosed(g: Graph, source: Id)
    ensures source in Affected(g, source) && Closed(Links(g), Affected(g, source))
  {
  }

  lemma ForgetKeepsRecords(t: Tables, source: Id, affected: set<Id>, now: Time)
    requires RecordsInv(t) && source in affected && Closed(Links(t.graph), affected)
    ensures RecordsInv(Forgotten(t, source, affected, now))
  {
    var after := Forgotten(t, source, affected, now);
    PurgedSound(t.graph, affected);
    forall kind, id, ref | Cites(after.graph, kind, id, ref) ensures ref in after.sources {
      PurgedKeeps(t.graph, affected, kind, id);
      assert Cites(t.graph, kind, id, ref);
    }
    forall kind: Kind, id | !kind.EntityKind? && Present(after.graph, kind, id) && Key(kind, id) in after.graph.identities
      ensures Untombstoned(after, after.graph.identities[Key(kind, id)].id)
    {
      PurgedKeeps(t.graph, affected, kind, id);
    }
    AcyclicSubset(t.graph.supports, after.graph.supports);
  }

  // ---- every run ----

  lemma StepKeepsSound(t: Tables, op: Op)
    requires Sound(t)
    ensures Sound(Step(t, op))
  {
    StepKeepsQueue(t, op);
    StepKeepsRecords(t, op);
  }

  lemma StepKeepsRecords(t: Tables, op: Op)
    requires RecordsInv(t)
    ensures RecordsInv(Step(t, op))
  {
    if !Consumes(t, op) {
      UnconsumedKeeps(t, op);
    } else if op.PublishOp? {
      PublishKeepsRecords(t, op.lease);
    } else {
      AffectedClosed(t.graph, op.source);
      ForgetKeepsRecords(t, op.source, Affected(t.graph, op.source), op.now);
    }
  }

  lemma EmptyIsSound()
    ensures Sound(EMPTY)
  {
    assert QueueInv(EMPTY);
    forall p: seq<Id> | |p| >= 2 ensures !Walk(EMPTY.graph.supports, p) {
      assert (p[0], p[1]) !in EMPTY.graph.supports;
    }
  }

  /**
   * In every state of every run the tables agree: rows with provenance, supports with inferences, references with
   * records, citations with stored evidence of sources not forgotten; and no memory rests on itself.
   */
  lemma {:induction false} BehaviourSound(states: seq<Tables>, ops: seq<Op>, i: nat)
    requires Behaviour(states, ops) && i < |states|
    ensures Sound(states[i])
  {
    hide Step;
    if i == 0 {
      EmptyIsSound();
    } else {
      BehaviourSound(states, ops, i - 1);
      assert states[i] == Step(states[i - 1], ops[i - 1]);
      StepKeepsSound(states[i - 1], ops[i - 1]);
    }
  }

  // ---- two states of one run ----

  ghost predicate Chain(states: seq<Tables>) {
    forall i | 0 <= i < |states| - 1 :: Onward(states[i], states[i + 1])
  }

  lemma BehaviourIsChain(states: seq<Tables>, ops: seq<Op>)
    requires Behaviour(states, ops)
    ensures Chain(states)
  {
    hide Step;
    forall i | 0 <= i < |states| - 1 ensures Onward(states[i], states[i + 1]) {
      assert states[i + 1] == Step(states[i], ops[i]);
      StepOnward(states[i], ops[i]);
    }
  }

  lemma OnwardTransitive(a: Tables, b: Tables, c: Tables)
    requires Onward(a, b) && Onward(b, c)
    ensures Onward(a, c)
  {
  }

  lemma {:induction false} ChainOnward(states: seq<Tables>, i: nat, j: nat)
    requires Chain(states) && i <= j < |states|
    ensures Onward(states[i], states[j])
  {
    if i < j {
      ChainOnward(states, i, j - 1);
      assert Onward(states[j - 1], states[j - 1 + 1]);
      OnwardTransitive(states[i], states[j - 1], states[j]);
    }
  }

  /** Accepted revisions never decrease, tombstones and sources stay, and the version only grows. */
  lemma Onwards(states: seq<Tables>, ops: seq<Op>, i: nat, j: nat)
    requires Behaviour(states, ops) && i <= j < |states|
    ensures Onward(states[i], states[j])
  {
    BehaviourIsChain(states, ops);
    ChainOnward(states, i, j);
  }

  /** Two states of a run at one version hold the same records. */
  lemma VersionDeterminesGraph(states: seq<Tables>, ops: seq<Op>, i: nat, j: nat)
    requires Behaviour(states, ops) && i < |states| && j < |states| && states[i].version == states[j].version
    ensures states[i].graph == states[j].graph
  {
    if i <= j { Onwards(states, ops, i, j); } else { Onwards(states, ops, j, i); }
  }

  lemma ConsumesAdvances(t: Tables, op: Op)
    requires Consumes(t, op)
    ensures Step(t, op).version == t.version + 1
  {
    if op.PublishOp? { PublishStep(t, op.lease); }
  }

  /** A version is consumed by one publication or forget at most. */
  lemma VersionConsumedOnce(states: seq<Tables>, ops: seq<Op>, i: nat, j: nat)
    requires Behaviour(states, ops) && i < j < |ops| && Consumes(states[i], ops[i])
    ensures states[i].version < states[j].version
  {
    hide Step;
    Onwards(states, ops, i + 1, j);
    ConsumesAdvances(states[i], ops[i]);
  }

  // ---- a published stage was staged against the very graph it replaces ----

  predicate HasStage(t: Tables, id: Id, stage: Stage) {
    id in t.jobs && t.jobs[id].stage == Some(stage)
  }

  /** A stage comes only from a worker staging it, under the version it names. */
  lemma StageComesFromStaging(t: Tables, op: Op, id: Id, stage: Stage)
    requires JobsSound(t) && HasStage(Step(t, op), id, stage)
    ensures HasStage(t, id, stage) || (op.StageOp? && op.lease.jobId == id && op.stage == stage && stage.expectedVersion == t.version)
  {
    hide Publish, Claim, Refusal, Affected, Purged, NextOrdinal, Recorded, JobSound;
    match op
    case EnqueueOp(input) =>
    case ClaimOp(claim) => ClaimKeepsStage(t, claim, id, stage);
    case RenewOp(lease, leaseMs) =>
    case StageOp(lease, put) =>
    case PublishOp(lease) => PublishKeepsJobs(t, lease, id);
    case FailOp(lease, reason, message) =>
    case RetryOp(_) =>
    case RequeueOp(_, _) =>
    case ForgetOp(_, _) =>
  }

  lemma ClaimKeepsStage(t: Tables, claim: ClaimInput, id: Id, stage: Stage)
    requires JobsSound(t) && HasStage(Commit(t, Claim(t, claim)), id, stage)
    ensures HasStage(t, id, stage)
  {
    if NextJob(t, claim).Some? {
      var prior := NextJob(t, claim).value;
      assert prior.id in t.jobs && t.jobs[prior.id] == prior;
    }
  }

  lemma PublishKeepsJobs(t: Tables, lease: Lease, id: Id)
    requires JobsSound(t)
    ensures Commit(t, Publish(t, lease)).jobs.Keys == t.jobs.Keys
    ensures id in t.jobs ==>
      var job := Commit(t, Publish(t, lease)).jobs[id];
      job.stage == t.jobs[id].stage && (job.phase == t.jobs[id].phase || job.phase.Complete?)
  {
    PublishOrNot(t, lease);
    hide Publish, Publishes;
  }

  lemma PublishOrNot(t: Tables, lease: Lease)
    ensures var after := Commit(t, Publish(t, lease));
      after == t || (lease.jobId in t.jobs && after.jobs == t.jobs[t.jobs[lease.jobId].id := t.jobs[lease.jobId].(phase := Complete(lease.now))])
  {
  }

  ghost predicate TracesStages(t: Tables, op: Op, after: Tables) {
    forall id, stage | HasStage(after, id, stage) ::
      HasStage(t, id, stage) || (op.StageOp? && op.lease.jobId == id && op.stage == stage && stage.expectedVersion == t.version)
  }

  ghost predicate StagesTraced(states: seq<Tables>, ops: seq<Op>) {
    && |states| == |ops| + 1 && states[0].jobs == map[]
    && forall i {:trigger ops[i]} | 0 <= i < |ops| :: TracesStages(states[i], ops[i], states[i + 1])
  }

  lemma BehaviourTracesStages(states: seq<Tables>, ops: seq<Op>)
    requires Behaviour(states, ops)
    ensures StagesTraced(states, ops)
  {
    hide Step;
    forall i | 0 <= i < |ops| ensures TracesStages(states[i], ops[i], states[i + 1]) {
      assert states[i + 1] == Step(states[i], ops[i]);
      BehaviourKeepsQueue(states, ops, i);
      forall id, stage | HasStage(states[i + 1], id, stage) { StageComesFromStaging(states[i], ops[i], id, stage); }
    }
  }

  lemma {:induction false} StageOrigin(states: seq<Tables>, ops: seq<Op>, k: nat, id: Id, stage: Stage) returns (m: nat)
    requires StagesTraced(states, ops) && k < |states| && HasStage(states[k], id, stage)
    ensures m < k && ops[m].StageOp? && ops[m].lease.jobId == id && ops[m].stage == stage
    ensures states[m].version == stage.expectedVersion
  {
    m := k - 1;
    assert TracesStages(states[m], ops[m], states[m + 1]);
    if HasStage(states[m], id, stage) {
      m := StageOrigin(states, ops, m, id, stage);
    }
  }

  /**
   * What a publication stores was staged during the run with no publication or forget in between:
   * an extraction staged before a forget, or before another publication, is never published after it.
   */
  lemma PublishedStageIsCurrent(states: seq<Tables>, ops: seq<Op>, k: nat) returns (m: nat)
    requires Behaviour(states, ops) && k < |ops| && ops[k].PublishOp? && Consumes(states[k], ops[k])
    ensures m < k && ops[m].StageOp? && HasStage(states[k], ops[k].lease.jobId, ops[m].stage)
    ensures ops[m].lease.jobId == ops[k].lease.jobId && ops[m].stage.expectedVersion == states[k].version
    ensures forall i | m <= i < k :: !Consumes(states[i], ops[i])
  {
    PublishesStage(states[k], ops[k].lease);
    BehaviourTracesStages(states, ops);
    var stage := states[k].jobs[ops[k].lease.jobId].stage.value;
    m := StageOrigin(states, ops, k, ops[k].lease.jobId, stage);
    forall i | m <= i < k ensures !Consumes(states[i], ops[i]) {
      Onwards(states, ops, m, i);
      if Consumes(states[i], ops[i]) { VersionConsumedOnce(states, ops, i, k); }
    }
  }

  // ---- leases ----

  predicate HoldsToken(t: Tables, id: Id, token: nat) {
    id in t.jobs && t.jobs[id].phase.Processing? && t.jobs[id].phase.token == token
  }

  predicate FreshTokens(ops: seq<Op>) {
    forall i, j | 0 <= i < j < |ops| && ops[i].ClaimOp? && ops[j].ClaimOp? :: ops[i].claim.token != ops[j].claim.token
  }

  /** Only a claim hands out a token. */
  lemma TokenComesFromClaim(t: Tables, op: Op, id: Id, token: nat)
    requires JobsSound(t) && HoldsToken(Step(t, op), id, token)
    ensures HoldsToken(t, id, token) || (op.ClaimOp? && op.claim.token == token)
  {
    hide Publish, Claim, StageRefusal, Affected, Purged, NextOrdinal, Recorded, JobSound;
    match op
    case EnqueueOp(input) =>
    case ClaimOp(claim) => ClaimKeepsTokens(t, claim, id, token);
    case RenewOp(lease, leaseMs) =>
    case StageOp(lease, put) =>
    case PublishOp(lease) => PublishKeepsJobs(t, lease, id);
    case FailOp(lease, reason, message) =>
    case RetryOp(_) =>
    case RequeueOp(_, _) =>
    case ForgetOp(_, _) =>
  }

  lemma ClaimKeepsTokens(t: Tables, claim: ClaimInput, id: Id, token: nat)
    requires JobsSound(t) && HoldsToken(Commit(t, Claim(t, claim)), id, token)
    ensures HoldsToken(t, id, token) || claim.token == token
  {
    if NextJob(t, claim).Some? {
      var prior := NextJob(t, claim).value;
      assert prior.id in t.jobs && t.jobs[prior.id] == prior;
    }
  }

  /** With a token the job no longer holds, no lease operation changes anything. */
  lemma FencedOut(t: Tables, lease: Lease, leaseMs: int, stage: Stage, reason: Reason, message: string)
    requires !HoldsToken(t, lease.jobId, lease.token)
    ensures Commit(t, Renew(t, lease, leaseMs)) == t
    ensures Commit(t, PutStage(t, lease, stage)) == t
    ensures Commit(t, Fail(t, lease, reason, message)) == t
    ensures Commit(t, Publish(t, lease)) == t
  {
  }

  ghost predicate TracesTokens(t: Tables, op: Op, after: Tables) {
    forall id, token | HoldsToken(after, id, token) :: HoldsToken(t, id, token) || (op.ClaimOp? && op.claim.token == token)
  }

  ghost predicate TokensTraced(states: seq<Tables>, ops: seq<Op>) {
    && |states| == |ops| + 1
    && forall i {:trigger ops[i]} | 0 <= i < |ops| :: TracesTokens(states[i], ops[i], states[i + 1])
  }

  lemma BehaviourTracesTokens(states: seq<Tables>, ops: seq<Op>)
    requires Behaviour(states, ops)
    ensures TokensTraced(states, ops)
  {
    hide Step;
    forall i | 0 <= i < |ops| ensures TracesTokens(states[i], ops[i], states[i + 1]) {
      assert states[i + 1] == Step(states[i], ops[i]);
      BehaviourKeepsQueue(states, ops, i);
      forall id, token | HoldsToken(states[i + 1], id, token) { TokenComesFromClaim(states[i], ops[i], id, token); }
    }
  }

  /** With fresh tokens, a token once lost is lost in every later state of the run. */
  lemma {:induction false} TokenLostForGood(states: seq<Tables>, ops: seq<Op>, i: nat, k: nat, l: nat, id: Id)
    requires TokensTraced(states, ops) && FreshTokens(ops) && i < k <= l < |states| && ops[i].ClaimOp?
    requires !HoldsToken(states[k], id, ops[i].claim.token)
    ensures !HoldsToken(states[l], id, ops[i].claim.token)
  {
    if k < l {
      TokenLostForGood(states, ops, i, k, l - 1, id);
      assert TracesTokens(states[l - 1], ops[l - 1], states[l - 1 + 1]);
    }
  }

  /** Once a job is claimed again, the earlier claim's holder changes nothing any more, whatever it tries and whenever. */
  lemma SupersededTokenIsPowerless(
      states: seq<Tables>, ops: seq<Op>, i: nat, j: nat, l: nat, lease: Lease, leaseMs: int, stage: Stage, reason: Reason, message: string)
    requires Behaviour(states, ops) && FreshTokens(ops) && i < j < l < |states| && ops[i].ClaimOp? && ops[j].ClaimOp?
    requires lease.token == ops[i].claim.token && HoldsToken(states[j + 1], lease.jobId, ops[j].claim.token)
    ensures Commit(states[l], Renew(states[l], lease, leaseMs)) == states[l]
    ensures Commit(states[l], PutStage(states[l], lease, stage)) == states[l]
    ensures Commit(states[l], Fail(states[l], lease, reason, message)) == states[l]
    ensures Commit(states[l], Publish(states[l], lease)) == states[l]
  {
    hide Step;
    BehaviourTracesTokens(states, ops);
    TokenLostForGood(states, ops, i, j + 1, l, lease.jobId);
    FencedOut(states[l], lease, leaseMs, stage, reason, message);
  }

  // ---- forgetting ----

  /** Nothing of the source is left: no unfinished job, no evidence, no record that cites it or was published by it. */
  ghost predicate Gone(t: Tables, source: Id) {
    && (forall id | id in t.jobs && t.jobs[id].source.id == source :: t.jobs[id].phase.Cancelled?)
    && (forall ref | ref in t.sources :: ref.id != source)
    && (forall kind, id, ref | Cites(t.graph, kind, id, ref) :: ref.id != source)
    && (forall kind: Kind, id | !kind.EntityKind? && Present(t.graph, kind, id) ::
          Key(kind, id) in t.graph.identities && t.graph.identities[Key(kind, id)].id != source)
  }

  lemma TombstonedIsGone(t: Tables, source: Id)
    requires Sound(t) && IsTombstoned(t, source)
    ensures Gone(t, source)
  {
    forall id | id in t.jobs && t.jobs[id].source.id == source ensures t.jobs[id].phase.Cancelled? {
      assert JobSound(t, t.jobs[id]);
    }
    forall kind: Kind, id | !kind.EntityKind? && Present(t.graph, kind, id)
      ensures Key(kind, id) in t.graph.identities && t.graph.identities[Key(kind, id)].id != source
    {
      assert Untombstoned(t, t.graph.identities[Key(kind, id)].id);
    }
  }

  /** A forgotten source stays forgotten in every later state: its tombstone as it was, and nothing of it ever again. */
  lemma ForgottenForGood(states: seq<Tables>, ops: seq<Op>, i: nat, k: nat, source: Id)
    requires Behaviour(states, ops) && i <= k < |states| && IsTombstoned(states[i], source)
    ensures IsTombstoned(states[k], source) && states[k].heads[source].tombstone == states[i].heads[source].tombstone
    ensures Gone(states[k], source)
  {
    Onwards(states, ops, i, k);
    BehaviourSound(states, ops, k);
    TombstonedIsGone(states[k], source);
  }

  /** No smaller set of sources could be rebuilt: `affected` is the least set with the source that the links stay inside. */
  lemma AffectedIsLeast(g: Graph, source: Id, sources: set<Id>)
    requires source in sources && Closed(Links(g), sources)
    ensures Affected(g, source) <= sources
  {
    ReachLeast(Links(g), {source}, sources);
  }

  /** Forgetting a source removes exactly the records the affected sources prove, and leaves the others as they were. */
  lemma ForgetPurges(t: Tables, source: Id, now: Time, kind: Kind, id: Id)
    requires RowsExact(t.graph) && !IsTombstoned(t, source)
    ensures var g, affected := Forget(t, source, now).graph, Affected(t.graph, source);
      && (Present(g, kind, id) <==> Present(t.graph, kind, id) && !Touched(t.graph, kind, id, affected))
      && (kind.MemoryKind? && Present(g, kind, id) ==> g.memories[id] == t.graph.memories[id])
      && (kind.ChunkKind? && Present(g, kind, id) ==> g.chunks[id] == t.graph.chunks[id])
      && (kind.EntityKind? && Present(g, kind, id) ==> g.entities[id] == t.graph.entities[id])
      && (kind.AssertionKind? && Present(g, kind, id) ==> g.assertions[id] == t.graph.assertions[id])
  {
    PurgedKeeps(t.graph, Affected(t.graph, source), kind, id);
  }

  /** It clears every staged extraction and queues each other affected source again at its accepted revision. */
  lemma ForgetRequeues(t: Tables, source: Id, affected: set<Id>, now: Time, other: Id) returns (job: Id)
    requires HeadsServed(t) && other in affected && other != source && Untombstoned(t, other) && t.heads[other].accepted > 0
    ensures var after := ForgottenJobs(t, source, affected, now);
      && (forall id | id in after :: after[id].stage == None)
      && job in after && after[job].source == Ref(other, t.heads[other].accepted) && after[job].phase == Queued
  {
    assert HasJob(t, Ref(other, t.heads[other].accepted));
    job :| job in t.jobs && t.jobs[job].source == Ref(other, t.heads[other].accepted);
  }

  // ---- inference over a run ----

  lemma PurgedStaysClosed(g: Graph, sources: set<Id>)
    requires GraphInv(g) && Closed(Links(g), sources) && InferenceClosed(g)
    ensures InferenceClosed(Purged(g, sources))
  {
    var after := Purged(g, sources);
    forall m | m in after.memories && Active(after.memories[m])
      ensures forall s | s in Supports(after.memories[m]) :: s in after.memories && Active(after.memories[s])
    {
      SurvivingMemory(g, sources, m);
      PurgedKeeps(g, sources, MemoryKind, m);
      forall s | s in Supports(g.memories[m]) ensures s in after.memories && Active(after.memories[s]) {
        PurgedKeeps(g, sources, MemoryKind, s);
      }
    }
  }

  /** Whether an operation, when it publishes, rests its inferences on memories it does not retire itself. */
  predicate KeepsSupports(t: Tables, op: Op) {
    op.PublishOp? && Consumes(t, op) && t.jobs[op.lease.jobId].stage.Some? ==>
      SupportsSurvive(t.graph, t.jobs[op.lease.jobId].stage.value, t.jobs[op.lease.jobId].source, op.lease.now)
  }

  lemma PublishStaysClosed(t: Tables, stage: Stage, source: Ref, now: Time, after: Tables)
    requires GraphInv(t.graph) && InferenceClosed(t.graph) && PublishesAs(t, stage, source, now, after)
    ensures InferenceClosed(after.graph) <==> SupportsSurvive(t.graph, stage, source, now)
  {
    var snapshot := Snapshot(stage.expectedVersion, t.graph.memories, t.graph.entities, t.graph.assertions);
    InferenceClosedKept(t.graph, stage, source, now, after.graph, snapshot);
  }

  lemma StepStaysClosed(t: Tables, op: Op)
    requires GraphInv(t.graph) && InferenceClosed(t.graph)
    ensures InferenceClosed(Step(t, op).graph) <==> KeepsSupports(t, op)
  {
    if !Consumes(t, op) {
      QueueStep(t, op);
    } else if op.PublishOp? {
      PublishesMeaning(t, op.lease, Commit(t, Publish(t, op.lease)));
      PublishStaysClosed(t, t.jobs[op.lease.jobId].stage.value, t.jobs[op.lease.jobId].source, op.lease.now, Commit(t, Publish(t, op.lease)));
    } else {
      AffectedClosed(t.graph, op.source);
      PurgedStaysClosed(t.graph, Affected(t.graph, op.source));
    }
  }

  ghost predicate ClosedThroughout(states: seq<Tables>) {
    forall i | 0 <= i < |states| :: InferenceClosed(states[i].graph)
  }

  predicate SupportsKeptThroughout(states: seq<Tables>, ops: seq<Op>)
    requires |states| == |ops| + 1
  {
    forall i | 0 <= i < |ops| :: KeepsSupports(states[i], ops[i])
  }

  /** Each step from a closed graph leads to a closed one exactly when it keeps its supports. */
  ghost predicate StepsClosed(states: seq<Tables>, ops: seq<Op>)
    requires |states| == |ops| + 1
  {
    forall i | 0 <= i < |ops| && InferenceClosed(states[i].graph) :: InferenceClosed(states[i + 1].graph) <==> KeepsSupports(states[i], ops[i])
  }

  lemma BehaviourStepsClosed(states: seq<Tables>, ops: seq<Op>)
    requires Behaviour(states, ops)
    ensures StepsClosed(states, ops)
  {
    hide Step;
    forall i | 0 <= i < |ops| && InferenceClosed(states[i].graph)
      ensures InferenceClosed(states[i + 1].graph) <==> KeepsSupports(states[i], ops[i])
    {
      assert states[i + 1] == Step(states[i], ops[i]);
      BehaviourSound(states, ops, i);
      StepStaysClosed(states[i], ops[i]);
    }
  }

  lemma {:induction false} ClosedAt(states: seq<Tables>, ops: seq<Op>, i: nat)
    requires |states| == |ops| + 1 && StepsClosed(states, ops) && SupportsKeptThroughout(states, ops)
    requires i < |states| && InferenceClosed(states[0].graph)
    ensures InferenceClosed(states[i].graph)
  {
    if i > 0 {
      ClosedAt(states, ops, i - 1);
      assert KeepsSupports(states[i - 1], ops[i - 1]) && InferenceClosed(states[i - 1 + 1].graph);
    }
  }

  /**
   * Every active inferred memory rests on active memories in every state of a run exactly when no publication
   * of the run stages an inference from a memory it retires itself.
   */
  lemma InferenceClosedThroughout(states: seq<Tables>, ops: seq<Op>)
    requires Behaviour(states, ops)
    ensures ClosedThroughout(states) <==> SupportsKeptThroughout(states, ops)
  {
    BehaviourStepsClosed(states, ops);
    if SupportsKeptThroughout(states, ops) {
      forall i | 0 <= i < |states| ensures InferenceClosed(states[i].graph) { ClosedAt(states, ops, i); }
    }
    if ClosedThroughout(states) {
      forall i | 0 <= i < |ops| ensures KeepsSupports(states[i], ops[i]) {
        assert InferenceClosed(states[i].graph) && InferenceClosed(states[i + 1].graph);
      }
    }
  }

  // ---- one publication ----

  /** After a source publishes a revision, every current record that cites the source cites that revision only. */
  lemma PublishedRevisionOnly(t: Tables, lease: Lease, kind: Kind, id: Id, ref: Ref)
    requires Sound(t) && Publishes(t, lease)
    requires Current(Commit(t, Publish(t, lease)).graph, kind, id) && Cites(Commit(t, Publish(t, lease)).graph, kind, id, ref)
    requires ref.id == t.jobs[lease.jobId].source.id
    ensures ref == t.jobs[lease.jobId].source
  {
    var job := t.jobs[lease.jobId];
    PublishesMeaning(t, lease, Commit(t, Publish(t, lease)));
    OneRevisionCited(t.graph, job.stage.value, job.source, lease.now, Commit(t, Publish(t, lease)).graph, kind, id, ref);
  }

  /** What was known at any time before a publication is known at that time after it, with the same content. */
  lemma PublicationKeepsThePast(t: Tables, lease: Lease, time: Time)
    requires Sound(t) && Publishes(t, lease) && time < lease.now
    ensures PastKept(t.graph, Commit(t, Publish(t, lease)).graph, time, lease.now)
  {
    var job := t.jobs[lease.jobId];
    PublishesMeaning(t, lease, Commit(t, Publish(t, lease)));
    PastIsStable(t.graph, job.stage.value, job.source, lease.now, Commit(t, Publish(t, lease)).graph, time);
  }
}
