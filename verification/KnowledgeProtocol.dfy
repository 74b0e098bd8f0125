/** What one transaction lets the next ones do: leases, retries, replays. */
module KnowledgeProtocol {
  import opened Prelude
  import opened KnowledgeModel
  import opened KnowledgeTables
  import opened KnowledgeQueue
  import opened KnowledgeGraph
  import opened KnowledgeRuns

  /** Whether a lease on a job is accepted at exactly the times before `until`. */
  ghost predicate HeldUntil(t: Tables, job: Id, token: nat, until: Time) {
    forall now: Time :: LeaseRefusal(t, Lease(job, token, now)).None? <==> now < until
  }

  /** A claim leaves tables in which its holder's lease is accepted until it ends. */
  lemma ClaimHolds(t: Tables, claim: ClaimInput)
    requires QueueInv(t) && Claim(t, claim).Done? && Claim(t, claim).value.Some?
    ensures var job := Claim(t, claim).value.value;
      HeldUntil(Claim(t, claim).tables, job.id, claim.token, claim.now + claim.leaseMs)
  {
    hide JobsUnique, HeadsSound, HeadsServed, SourcesSound;
  }

  /** In those tables no other claim is handed the job before the lease ends, and from then on one of its engine may be. */
  lemma ClaimExcludes(t: Tables, claim: ClaimInput, other: ClaimInput)
    requires QueueInv(t) && Claim(t, claim).Done? && Claim(t, claim).value.Some?
    ensures var after := Claim(t, claim).tables;
      var job := Claim(t, claim).value.value;
      && job.id in after.jobs
      && (other.now < claim.now + claim.leaseMs ==> !Claimable(after, after.jobs[job.id], other))
      && (other.now >= claim.now + claim.leaseMs && other.engine == claim.engine && other.jobId.GetOr(job.id) == job.id ==>
            Claimable(after, after.jobs[job.id], other))
  {
    hide JobsUnique, HeadsSound, HeadsServed, SourcesSound;
  }

  /** The job is leased under the token until then, for workers of the engine. */
  predicate Leased(t: Tables, id: Id, token: nat, until: Time, engine: string, source: Ref) {
    && HoldsToken(t, id, token)
    && t.jobs[id].phase.leaseUntil == until && t.jobs[id].engine == engine && t.jobs[id].source == source
  }

  /** What may take a leased job from its holder or move its lease: the holder itself, a claim after the lease, news of the source, a forget. */
  predicate Releases(op: Op, id: Id, token: nat, until: Time, source: Id) {
    match op
    case EnqueueOp(input) => input.source.ref.id == source
    case ClaimOp(claim) => claim.now >= until
    case RenewOp(lease, _) => lease.jobId == id && lease.token == token
    case PublishOp(lease) => lease.jobId == id && lease.token == token
    case FailOp(lease, _, _) => lease.jobId == id && lease.token == token
    case ForgetOp(_, _) => true
    case StageOp(_, _) => false
    case RetryOp(_) => false
    case RequeueOp(_, _) => false
  }

  lemma ClaimLeaves(t: Tables, claim: ClaimInput, id: Id, token: nat, until: Time, engine: string, source: Ref)
    requires JobsSound(t) && Leased(t, id, token, until, engine, source) && claim.now < until
    ensures Leased(Commit(t, Claim(t, claim)), id, token, until, engine, source)
  {
    if NextJob(t, claim).Some? {
      var prior := NextJob(t, claim).value;
      assert prior.id in t.jobs && t.jobs[prior.id] == prior;
    }
  }

  lemma EnqueueLeaves(t: Tables, input: EnqueueInput, id: Id, token: nat, until: Time, engine: string, source: Ref)
    requires Leased(t, id, token, until, engine, source) && input.source.ref.id != source.id
    ensures Leased(Commit(t, Enqueue(t, input)), id, token, until, engine, source)
  {
    assert input.jobId !in t.jobs || t.jobs[input.jobId].source != input.source.ref || t.jobs[input.jobId].engine != input.engine
           || input.jobId in Recorded(t, input.source.ref, input.engine);
  }

  lemma PublishLeaves(t: Tables, lease: Lease, id: Id, token: nat, until: Time, engine: string, source: Ref)
    requires JobsSound(t) && Leased(t, id, token, until, engine, source) && !(lease.jobId == id && lease.token == token)
    ensures Leased(Commit(t, Publish(t, lease)), id, token, until, engine, source)
  {
    hide Publish, Commit, JobSound;
    if lease.jobId == id { PublishFenced(t, lease); } else { PublishOrNot(t, lease); }
  }

  lemma PublishFenced(t: Tables, lease: Lease)
    requires lease.jobId in t.jobs && t.jobs[lease.jobId].phase.Processing? && !HoldsToken(t, lease.jobId, lease.token)
    ensures Commit(t, Publish(t, lease)) == t
  {
  }

  lemma LeaseKept(t: Tables, op: Op, id: Id, token: nat, until: Time, engine: string, source: Ref)
    requires JobsSound(t) && Leased(t, id, token, until, engine, source) && !Releases(op, id, token, until, source.id)
    ensures Leased(Step(t, op), id, token, until, engine, source)
  {
    match op
    case EnqueueOp(input) => EnqueueLeaves(t, input, id, token, until, engine, source);
    case ClaimOp(claim) => ClaimLeaves(t, claim, id, token, until, engine, source);
    case RenewOp(lease, leaseMs) =>
    case StageOp(lease, put) =>
    case PublishOp(lease) => PublishLeaves(t, lease, id, token, until, engine, source);
    case FailOp(lease, reason, message) =>
    case RetryOp(_) =>
    case RequeueOp(_, _) =>
    case ForgetOp(_, _) =>
  }

  lemma {:induction false} LeasedFrom(
      states: seq<Tables>, ops: seq<Op>, i: nat, k: nat, id: Id, token: nat, until: Time, engine: string, source: Ref)
    requires Behaviour(states, ops) && i <= k < |states| && Leased(states[i], id, token, until, engine, source)
    requires forall j | i <= j < k :: !Releases(ops[j], id, token, until, source.id)
    ensures Leased(states[k], id, token, until, engine, source)
  {
    hide Step, Leased, Releases;
    if i < k {
      LeasedFrom(states, ops, i, k - 1, id, token, until, engine, source);
      BehaviourKeepsQueue(states, ops, k - 1);
      LeaseKept(states[k - 1], ops[k - 1], id, token, until, engine, source);
      assert states[k - 1 + 1] == Step(states[k - 1], ops[k - 1]);
    }
  }

  lemma LeasedMeans(t: Tables, id: Id, token: nat, until: Time, engine: string, source: Ref, other: ClaimInput)
    requires QueueInv(t) && Leased(t, id, token, until, engine, source)
    ensures HeldUntil(t, id, token, until)
    ensures Claimable(t, t.jobs[id], other) <==> other.now >= until && other.engine == engine && other.jobId.GetOr(id) == id
  {
    hide JobsUnique, HeadsSound, HeadsServed, SourcesSound;
    assert JobSound(t, t.jobs[id]);
  }

  lemma ClaimLeases(t: Tables, claim: ClaimInput)
    requires JobsSound(t) && Claim(t, claim).Done? && Claim(t, claim).value.Some?
    ensures var job := Claim(t, claim).value.value;
      Leased(Commit(t, Claim(t, claim)), job.id, claim.token, claim.now + claim.leaseMs, claim.engine, job.source)
  {
  }

  /**
   * Over a run: from a claim until something releases the job its holder's lease is accepted at exactly the times
   * before it ends, and no claim is handed the job at a time before that.
   */
  lemma ClaimLasts(states: seq<Tables>, ops: seq<Op>, i: nat, k: nat, other: ClaimInput)
    requires Behaviour(states, ops) && i < k < |states| && ops[i].ClaimOp?
    requires Claim(states[i], ops[i].claim).Done? && Claim(states[i], ops[i].claim).value.Some?
    requires var job, claim := Claim(states[i], ops[i].claim).value.value, ops[i].claim;
      forall j | i < j < k :: !Releases(ops[j], job.id, claim.token, claim.now + claim.leaseMs, job.source.id)
    ensures var job, claim := Claim(states[i], ops[i].claim).value.value, ops[i].claim;
      && HeldUntil(states[k], job.id, claim.token, claim.now + claim.leaseMs)
      && job.id in states[k].jobs
      && (Claimable(states[k], states[k].jobs[job.id], other) <==>
            other.now >= claim.now + claim.leaseMs && other.engine == claim.engine && other.jobId.GetOr(job.id) == job.id)
  {
    hide Claim, Releases, Leased, Claimable, HeldUntil, QueueInv;
    var claim := ops[i].claim;
    var job := Claim(states[i], claim).value.value;
    var until := claim.now + claim.leaseMs;
    BehaviourKeepsQueue(states, ops, i);
    QueueHasJobs(states[i]);
    ClaimLeases(states[i], claim);
    assert states[i + 1] == Step(states[i], ops[i]);
    LeasedFrom(states, ops, i + 1, k, job.id, claim.token, until, claim.engine, job.source);
    BehaviourKeepsQueue(states, ops, k);
    LeasedThere(states[k], job.id, claim.token, until, claim.engine, job.source);
    LeasedMeans(states[k], job.id, claim.token, until, claim.engine, job.source, other);
  }

  lemma QueueHasJobs(t: Tables)
    requires QueueInv(t)
    ensures JobsSound(t)
  {
  }

  lemma LeasedThere(t: Tables, id: Id, token: nat, until: Time, engine: string, source: Ref)
    requires Leased(t, id, token, until, engine, source)
    ensures id in t.jobs
  {
  }

  /** A renewal holds the job for the new duration, counted from the renewal. */
  lemma RenewHolds(t: Tables, lease: Lease, leaseMs: int)
    requires JobsSound(t) && Renew(t, lease, leaseMs).Done?
    ensures HeldUntil(Renew(t, lease, leaseMs).tables, lease.jobId, lease.token, lease.now + leaseMs)
  {
  }

  /** A failed job, retried, is queued as it was: same attempt, same stage, there for any claim of its engine. */
  lemma RetryRestores(t: Tables, lease: Lease, reason: Reason, message: string, claim: ClaimInput)
    requires JobsSound(t) && Fail(t, lease, reason, message).Done?
    ensures var failed := Fail(t, lease, reason, message).tables;
      var retried := Retry(failed, lease.jobId);
      && retried.Done?
      && retried.tables == SaveJob(t, t.jobs[lease.jobId].(phase := Queued))
      && (claim.engine == t.jobs[lease.jobId].engine && claim.jobId.GetOr(lease.jobId) == lease.jobId ==>
            Claimable(retried.tables, retried.value, claim))
  {
    var failed := Fail(t, lease, reason, message).tables;
    assert failed.jobs[lease.jobId].id == lease.jobId;
    assert Retry(failed, lease.jobId).tables.jobs == SaveJob(t, t.jobs[lease.jobId].(phase := Queued)).jobs;
  }

  /** Requeuing under another engine drops the stage and the attempts; under the same one it only drops the attempts. */
  lemma RequeueRestarts(t: Tables, lease: Lease, reason: Reason, message: string, engine: string)
    requires QueueInv(t) && Fail(t, lease, reason, message).Done?
    ensures var job := t.jobs[lease.jobId];
      var requeued := Requeue(Fail(t, lease, reason, message).tables, lease.jobId, engine);
      && requeued.Done?
      && requeued.value == job.(engine := engine, attempt := 0, phase := Queued, stage := if engine == job.engine then job.stage else None)
  {
    hide HeadsSound, HeadsServed, SourcesSound;
    var failed := Fail(t, lease, reason, message).tables;
    assert failed.jobs[lease.jobId].id == lease.jobId;
    forall id | id in Recorded(failed, failed.jobs[lease.jobId].source, engine) ensures id == lease.jobId {
      assert t.jobs[id].source == failed.jobs[id].source == t.jobs[lease.jobId].source;
    }
    assert Recorded(failed, failed.jobs[lease.jobId].source, engine) - {lease.jobId} == {};
  }

  /** An accepted stage is on its job, passes the same checks again, and leaves the lease accepted. */
  lemma StagedIsValid(t: Tables, lease: Lease, stage: Stage)
    requires JobsSound(t) && PutStage(t, lease, stage).Done?
    ensures var after := PutStage(t, lease, stage).tables;
      && after.jobs[lease.jobId].stage == Some(stage)
      && StageRefusal(after, stage) == None
      && LeaseRefusal(after, lease) == None
  {
    hide Refusal;
    var after := PutStage(t, lease, stage).tables;
    assert t.jobs[lease.jobId].id == lease.jobId;
    assert LiveSources(after) == LiveSources(t);
  }

  /** Every span a staged inference may count is of evidence there is. */
  ghost predicate EvidenceThere(stage: Stage, snapshot: Snapshot, sources: map<Ref, Source>) {
    forall id | id in Citable(stage, snapshot) :: forall s | s in Lookup(stage, snapshot, id).value.provenance :: s.source in sources
  }

  predicate Extends(sources: map<Ref, Source>, more: map<Ref, Source>) {
    forall ref | ref in sources :: ref in more && more[ref] == sources[ref]
  }

  lemma SpansStayGood(stage: Stage, sources: map<Ref, Source>, more: map<Ref, Source>)
    requires SpansGood(stage, sources) && Extends(sources, more)
    ensures SpansGood(stage, more)
  {
    assert forall s | GoodSpan(s, sources) :: GoodSpan(s, more);
  }

  lemma EpisodesStay(stage: Stage, snapshot: Snapshot, sources: map<Ref, Source>, more: map<Ref, Source>)
    requires RoutinesSupported(stage, snapshot, sources) && EvidenceThere(stage, snapshot, sources) && Extends(sources, more)
    ensures RoutinesSupported(stage, snapshot, more)
  {
    forall m | m in stage.memories ensures Episodes(stage, snapshot, m, more) == Episodes(stage, snapshot, m, sources) {
      forall id, s | id in Supports(m) && id in Citable(stage, snapshot) && s in Lookup(stage, snapshot, id).value.provenance
        ensures KeyOf(s.source, more) == KeyOf(s.source, sources)
      {
        assert s.source in sources;
      }
    }
  }

  /** New evidence refuses no stage that was accepted without it. */
  lemma AcceptedStays(stage: Stage, snapshot: Snapshot, sources: map<Ref, Source>, more: map<Ref, Source>)
    requires Refusal(stage, snapshot, sources) == None && EvidenceThere(stage, snapshot, sources) && Extends(sources, more)
    ensures Refusal(stage, snapshot, more) == None
  {
    hide SpansGood, RoutinesSupported, EvidenceThere, Extends, Cyclic;
    SpansStayGood(stage, sources, more);
    EpisodesStay(stage, snapshot, sources, more);
  }

  lemma EvidenceIsThere(t: Tables, stage: Stage)
    requires Sound(t) && SpansGood(stage, LiveSources(t))
    ensures EvidenceThere(stage, SnapshotOf(t), LiveSources(t))
  {
    hide JobsSound, JobsUnique, HeadsSound, HeadsServed, GraphInv;
    var snapshot := SnapshotOf(t);
    forall id, s | id in Citable(stage, snapshot) && s in Lookup(stage, snapshot, id).value.provenance
      ensures s.source in LiveSources(t)
    {
      var m := Lookup(stage, snapshot, id).value;
      if m in stage.memories {
        assert GoodSpan(s, LiveSources(t));
      } else {
        assert Cites(t.graph, MemoryKind, id, s.source);
      }
    }
  }

  lemma EvidenceGrows(t: Tables, op: Op)
    requires !Consumes(t, op)
    ensures Extends(LiveSources(t), LiveSources(Step(t, op)))
  {
    QueueStep(t, op);
    if op.EnqueueOp? {
      hide Step, Consumes;
      EnqueueGrows(t, op.input);
      EnqueueIsStep(t, op);
    } else {
      hide Step, Consumes;
    }
  }

  lemma EnqueueIsStep(t: Tables, op: Op)
    requires op.EnqueueOp?
    ensures Step(t, op) == Commit(t, Enqueue(t, op.input))
  {
  }

  lemma EnqueueGrows(t: Tables, input: EnqueueInput)
    ensures Extends(LiveSources(t), LiveSources(Commit(t, Enqueue(t, input))))
  {
  }

  lemma {:induction false} UnconsumedFrom(states: seq<Tables>, ops: seq<Op>, m: nat, k: nat)
    requires Behaviour(states, ops) && m <= k < |states| && forall i | m <= i < k :: !Consumes(states[i], ops[i])
    ensures states[k].version == states[m].version && states[k].graph == states[m].graph
    ensures Extends(LiveSources(states[m]), LiveSources(states[k]))
  {
    hide Step, Consumes;
    if m < k {
      UnconsumedFrom(states, ops, m, k - 1);
      assert states[k - 1 + 1] == Step(states[k - 1], ops[k - 1]);
      QueueStep(states[k - 1], ops[k - 1]);
      EvidenceGrows(states[k - 1], ops[k - 1]);
    }
  }

  lemma AcceptedStage(t: Tables, lease: Lease, stage: Stage)
    requires PutStage(t, lease, stage).Done?
    ensures stage.expectedVersion == t.version && Refusal(stage, SnapshotOf(t), LiveSources(t)) == None
    ensures SpansGood(stage, LiveSources(t))
  {
  }

  lemma ConsumedRefuses(states: seq<Tables>, ops: seq<Op>, m: nat, i: nat, k: nat, stage: Stage)
    requires Behaviour(states, ops) && m <= i < k < |states| && Consumes(states[i], ops[i]) && stage.expectedVersion == states[m].version
    ensures StageRefusal(states[k], stage) == Some(Conflict)
  {
    hide Step, Consumes, Refusal;
    Onwards(states, ops, m, i);
    ConsumesAdvances(states[i], ops[i]);
    assert states[i + 1] == Step(states[i], ops[i]);
    Onwards(states, ops, i + 1, k);
  }

  lemma StagedStays(states: seq<Tables>, ops: seq<Op>, m: nat, k: nat, lease: Lease, stage: Stage)
    requires Behaviour(states, ops) && m <= k < |states| && PutStage(states[m], lease, stage).Done?
    requires forall i | m <= i < k :: !Consumes(states[i], ops[i])
    ensures StageRefusal(states[k], stage) == None
  {
    hide Step, Consumes, Refusal, PutStage, Extends, EvidenceThere, LiveSources, SpansGood, Sound;
    AcceptedStage(states[m], lease, stage);
    UnconsumedFrom(states, ops, m, k);
    BehaviourSound(states, ops, m);
    EvidenceIsThere(states[m], stage);
    AcceptedStays(stage, SnapshotOf(states[m]), LiveSources(states[m]), LiveSources(states[k]));
    assert SnapshotOf(states[k]) == SnapshotOf(states[m]);
  }

  /**
   * Over a run: a stage the store accepted passes the checks of a publication for exactly as long as no publication or
   * forget takes effect, whatever else is enqueued, claimed, renewed, failed or retried.
   */
  lemma StagedLasts(states: seq<Tables>, ops: seq<Op>, m: nat, k: nat)
    requires Behaviour(states, ops) && m < k < |states| && ops[m].StageOp?
    requires PutStage(states[m], ops[m].lease, ops[m].stage).Done?
    ensures StageRefusal(states[k], ops[m].stage) == None <==> forall i | m <= i < k :: !Consumes(states[i], ops[i])
  {
    hide Step, Consumes, PutStage, StageRefusal;
    if i :| m <= i < k && Consumes(states[i], ops[i]) {
      AcceptedStage(states[m], ops[m].lease, ops[m].stage);
      ConsumedRefuses(states, ops, m, i, k, ops[m].stage);
    } else {
      StagedStays(states, ops, m, k, ops[m].lease, ops[m].stage);
    }
  }

  /** Enqueuing the same evidence again under the same engine answers with the job there is, and changes nothing. */
  lemma EnqueueReplays(t: Tables, input: EnqueueInput)
    requires QueueInv(t) && Enqueue(t, input).Done?
    ensures var after := Enqueue(t, input).tables;
      Enqueue(after, input) == Done(Enqueue(t, input).value, after)
  {
    hide JobsUnique, HeadsSound, HeadsServed, SourcesSound;
    var ref := input.source.ref;
    var after := Enqueue(t, input).tables;
    assert forall id | id in t.jobs && t.jobs[id].source == ref && t.jobs[id].engine == input.engine :: id in Recorded(t, ref, input.engine);
    if Recorded(t, ref, input.engine) == {} {
      assert input.jobId !in t.jobs || input.jobId in Recorded(t, ref, input.engine);
      assert Recorded(after, ref, input.engine) == {input.jobId};
    }
  }

  /** A new revision takes every unfinished job of the source away from its holder. */
  lemma EnqueueFences(t: Tables, input: EnqueueInput, lease: Lease)
    requires QueueInv(t) && Enqueue(t, input).Done? && Enqueue(t, input).tables != t
    requires lease.jobId in t.jobs && t.jobs[lease.jobId].source.id == input.source.ref.id
    ensures LeaseRefusal(Enqueue(t, input).tables, lease).Some?
  {
    hide JobsUnique, HeadsSound, HeadsServed, SourcesSound, NextOrdinal;
    assert JobSound(t, t.jobs[lease.jobId]);
  }

  /** Forgetting twice is forgetting once. */
  lemma ForgetIdempotent(t: Tables, source: Id, now: Time, later: Time)
    ensures Forget(Forget(t, source, now), source, later) == Forget(t, source, now)
  {
  }

  /** Publishing a completed job again succeeds and changes nothing, whoever asks. */
  lemma PublishIdempotent(t: Tables, lease: Lease, again: Lease)
    requires JobsSound(t) && Publishes(t, lease) && again.jobId == lease.jobId
    ensures var after := Commit(t, Publish(t, lease)); Publish(after, again) == Done((), after)
  {
    hide PublishRefusal, PublishedGraph, StageRefusal;
    assert t.jobs[lease.jobId].id == lease.jobId;
  }
}
