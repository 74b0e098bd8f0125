/** Runs of the store's transactions, and what every run keeps of the job queue and the source heads. */
module KnowledgeQueue {
  import opened Prelude
  import opened KnowledgeModel
  import opened KnowledgeTables

  datatype Op =
    | EnqueueOp(input: EnqueueInput)
    | ClaimOp(claim: ClaimInput)
    | RenewOp(lease: Lease, leaseMs: int)
    | StageOp(lease: Lease, stage: Stage)
    | PublishOp(lease: Lease)
    | FailOp(lease: Lease, reason: Reason, message: string)
    | RetryOp(id: Id)
    | RequeueOp(id: Id, engine: string)
    | ForgetOp(source: Id, now: Time)

  /** A refused transaction rolls back. */
  function Commit<T>(t: Tables, o: Outcome<T>): Tables {
    match o
    case Done(_, after) => after
    case Refused(_) => t
  }

  function Step(t: Tables, op: Op): Tables {
    match op
    case EnqueueOp(input) => Commit(t, Enqueue(t, input))
    case ClaimOp(claim) => Commit(t, Claim(t, claim))
    case RenewOp(lease, leaseMs) => Commit(t, Renew(t, lease, leaseMs))
    case StageOp(lease, stage) => Commit(t, PutStage(t, lease, stage))
    case PublishOp(lease) => Commit(t, Publish(t, lease))
    case FailOp(lease, reason, message) => Commit(t, Fail(t, lease, reason, message))
    case RetryOp(id) => Commit(t, Retry(t, id))
    case RequeueOp(id, engine) => Commit(t, Requeue(t, id, engine))
    case ForgetOp(source, now) => Forget(t, source, now)
  }

  /** A run of the store from empty tables: the states its committed and refused transactions pass through. */
  predicate Behaviour(states: seq<Tables>, ops: seq<Op>) {
    && |states| == |ops| + 1
    && states[0] == EMPTY
    && forall i | 0 <= i < |ops| :: states[i + 1] == Step(states[i], ops[i])
  }

  /** The job's phase fits where its revision stands among its source's. */
  predicate JobSound(t: Tables, job: Job) {
    && job.source.id in t.heads
    && 1 <= job.source.revision <= t.heads[job.source.id].accepted
    && (job.phase.Queued? || job.phase.Processing? || job.phase.Failed? ==> job.source.revision == t.heads[job.source.id].accepted)
    && (job.phase.Cancelled? ==> job.source.revision < t.heads[job.source.id].accepted || IsTombstoned(t, job.source.id))
    && (IsTombstoned(t, job.source.id) ==> job.phase.Cancelled?)
    && (job.stage.Some? ==> job.stage.value.expectedVersion <= t.version)
  }

  predicate JobsSound(t: Tables) {
    forall id | id in t.jobs :: t.jobs[id].id == id && JobSound(t, t.jobs[id])
  }

  /** No two jobs share a source revision or a place in the queue. */
  predicate JobsUnique(t: Tables) {
    forall i, j | i in t.jobs && j in t.jobs && i != j ::
      t.jobs[i].source != t.jobs[j].source && t.jobs[i].ordinal != t.jobs[j].ordinal
  }

  predicate HasJob(t: Tables, source: Ref) {
    exists id | id in t.jobs :: t.jobs[id].source == source
  }

  predicate HeadsSound(t: Tables) {
    forall s | s in t.heads ::
      && (t.heads[s].accepted > 0 && Untombstoned(t, s) ==> Ref(s, t.heads[s].accepted) in t.sources)
      && (t.heads[s].published.Some? ==> t.heads[s].published.value <= t.heads[s].accepted)
  }

  predicate HeadsServed(t: Tables) {
    forall s | s in t.heads && t.heads[s].accepted > 0 :: HasJob(t, Ref(s, t.heads[s].accepted))
  }

  /** The stored revisions are those of sources that were not forgotten. */
  predicate SourcesSound(t: Tables) {
    forall ref | ref in t.sources ::
      && t.sources[ref].ref == ref
      && Untombstoned(t, ref.id)
      && 1 <= ref.revision <= t.heads[ref.id].accepted
  }

  predicate QueueInv(t: Tables) {
    JobsSound(t) && JobsUnique(t) && HeadsSound(t) && HeadsServed(t) && SourcesSound(t)
  }

  /** Jobs stay on their source revision, and no accepted revision changes but that of `served`. */
  lemma ServedKept(t: Tables, after: Tables, served: Ref)
    requires HeadsServed(t)
    requires forall id | id in t.jobs :: id in after.jobs && after.jobs[id].source == t.jobs[id].source
    requires forall s | s in after.heads && s != served.id && after.heads[s].accepted > 0 ::
               s in t.heads && t.heads[s].accepted == after.heads[s].accepted
    requires served.id in after.heads && after.heads[served.id].accepted > 0 ==>
               after.heads[served.id].accepted == served.revision && HasJob(after, served)
    ensures HeadsServed(after)
  {
    forall s | s in after.heads && after.heads[s].accepted > 0 ensures HasJob(after, Ref(s, after.heads[s].accepted)) {
      if s != served.id {
        assert HasJob(t, Ref(s, t.heads[s].accepted));
        var id :| id in t.jobs && t.jobs[id].source == Ref(s, t.heads[s].accepted);
        assert after.jobs[id].source == Ref(s, after.heads[s].accepted);
      }
    }
  }

  /** The special case without a new revision. */
  lemma ServedUnchanged(t: Tables, after: Tables)
    requires HeadsServed(t)
    requires forall id | id in t.jobs :: id in after.jobs && after.jobs[id].source == t.jobs[id].source
    requires forall s | s in after.heads && after.heads[s].accepted > 0 :: s in t.heads && t.heads[s].accepted == after.heads[s].accepted
    ensures HeadsServed(after)
  {
    forall s | s in after.heads && after.heads[s].accepted > 0 ensures HasJob(after, Ref(s, after.heads[s].accepted)) {
      var id :| id in t.jobs && t.jobs[id].source == Ref(s, t.heads[s].accepted);
      assert after.jobs[id].source == Ref(s, after.heads[s].accepted);
    }
  }

  /** What saving a job that keeps its revision may change. */
  lemma SaveKeepsJobs(t: Tables, job: Job)
    requires JobsSound(t) && JobsUnique(t) && HeadsSound(t) && SourcesSound(t)
    requires job.id in t.jobs && t.jobs[job.id].source == job.source && t.jobs[job.id].ordinal == job.ordinal
    requires JobSound(t, job)
    ensures JobsSound(SaveJob(t, job)) && JobsUnique(SaveJob(t, job)) && HeadsSound(SaveJob(t, job)) && SourcesSound(SaveJob(t, job))
  {
  }

  lemma SaveKeeps(t: Tables, job: Job)
    requires QueueInv(t)
    requires job.id in t.jobs && t.jobs[job.id].source == job.source && t.jobs[job.id].ordinal == job.ordinal
    requires JobSound(t, job)
    ensures QueueInv(SaveJob(t, job))
  {
    SaveKeepsJobs(t, job);
    ServedUnchanged(t, SaveJob(t, job));
  }

  lemma UniqueKept(t: Tables, after: Tables)
    requires JobsUnique(t)
    requires forall id | id in after.jobs :: id in t.jobs && after.jobs[id].source == t.jobs[id].source && after.jobs[id].ordinal == t.jobs[id].ordinal
    ensures JobsUnique(after)
  {
  }

  lemma AcceptKeepsJob(t: Tables, source: Source, job: Job, id: Id)
    requires JobsSound(t) && !IsTombstoned(t, source.ref.id) && id in Accepted(t, source, job).jobs
    requires job.phase == Queued && job.stage == None && job.source == source.ref
    requires source.ref.revision > if source.ref.id in t.heads then t.heads[source.ref.id].accepted else 0
    ensures Accepted(t, source, job).jobs[id].id == id && JobSound(Accepted(t, source, job), Accepted(t, source, job).jobs[id])
  {
    if id != job.id {
      assert t.jobs[id].id == id && JobSound(t, t.jobs[id]);
    }
  }

  lemma AcceptKeepsJobs(t: Tables, source: Source, job: Job)
    requires JobsSound(t) && !IsTombstoned(t, source.ref.id)
    requires job.phase == Queued && job.stage == None && job.source == source.ref
    requires source.ref.revision > if source.ref.id in t.heads then t.heads[source.ref.id].accepted else 0
    ensures JobsSound(Accepted(t, source, job))
  {
    forall id | id in Accepted(t, source, job).jobs
      ensures Accepted(t, source, job).jobs[id].id == id && JobSound(Accepted(t, source, job), Accepted(t, source, job).jobs[id])
    {
      AcceptKeepsJob(t, source, job, id);
    }
    hide Accepted, JobSound;
  }

  lemma AcceptKeepsUnique(t: Tables, source: Source, job: Job)
    requires JobsSound(t) && JobsUnique(t)
    requires job.id !in t.jobs && job.source == source.ref && job.ordinal == NextOrdinal(t)
    requires source.ref.revision > if source.ref.id in t.heads then t.heads[source.ref.id].accepted else 0
    ensures JobsUnique(Accepted(t, source, job))
  {
    var after := Accepted(t, source, job);
    forall id | id in t.jobs
      ensures after.jobs[id].source == t.jobs[id].source != job.source
      ensures after.jobs[id].ordinal == t.jobs[id].ordinal < job.ordinal
    {
      assert JobSound(t, t.jobs[id]);
    }
  }

  lemma AcceptKeepsHeads(t: Tables, source: Source, job: Job)
    requires HeadsSound(t) && SourcesSound(t) && !IsTombstoned(t, source.ref.id)
    requires source.ref.revision > if source.ref.id in t.heads then t.heads[source.ref.id].accepted else 0
    ensures HeadsSound(Accepted(t, source, job)) && SourcesSound(Accepted(t, source, job))
  {
    assert source.ref !in t.sources;
  }

  lemma EnqueueKeeps(t: Tables, input: EnqueueInput)
    requires QueueInv(t)
    ensures QueueInv(Commit(t, Enqueue(t, input)))
  {
    hide JobsSound, JobsUnique, HeadsSound, SourcesSound, NextOrdinal;
    var ref := input.source.ref;
    var o := Enqueue(t, input);
    if o.Done? && Recorded(t, ref, input.engine) == {} {
      assert input.jobId !in t.jobs || input.jobId in Recorded(t, ref, input.engine);
      AcceptKeepsJobs(t, input.source, o.value);
      AcceptKeepsUnique(t, input.source, o.value);
      AcceptKeepsHeads(t, input.source, o.value);
      assert o.tables.jobs[input.jobId].source == ref;
      ServedKept(t, o.tables, ref);
    }
  }

  predicate Forgets(t: Tables, after: Tables, source: Id, affected: set<Id>, now: Time) {
    && !IsTombstoned(t, source)
    && after.version == t.version + 1
    && after.heads == t.heads[source := (if source in t.heads then t.heads[source] else Head(0, None, None)).(tombstone := Some(now))]
    && after.sources == (map ref | ref in t.sources && ref.id != source :: t.sources[ref])
    && after.jobs == ForgottenJobs(t, source, affected, now)
  }

  lemma ForgottenKeepsJobs(t: Tables, after: Tables, source: Id, affected: set<Id>, now: Time)
    requires JobsSound(t) && Forgets(t, after, source, affected, now)
    ensures JobsSound(after)
  {
    forall id | id in after.jobs ensures after.jobs[id].id == id && JobSound(after, after.jobs[id]) {
      assert t.jobs[id].id == id && JobSound(t, t.jobs[id]);
    }
  }

  lemma ForgottenKeepsHeads(t: Tables, after: Tables, source: Id, affected: set<Id>, now: Time)
    requires HeadsSound(t) && SourcesSound(t) && Forgets(t, after, source, affected, now)
    ensures HeadsSound(after) && SourcesSound(after)
  {
  }

  lemma ForgottenKeepsPlaces(t: Tables, after: Tables, source: Id, affected: set<Id>, now: Time)
    requires JobsUnique(t) && HeadsServed(t) && Forgets(t, after, source, affected, now)
    ensures JobsUnique(after) && HeadsServed(after)
  {
    UniqueKept(t, after);
    ServedUnchanged(t, after);
  }

  lemma ForgottenKeeps(t: Tables, after: Tables, source: Id, affected: set<Id>, now: Time)
    requires QueueInv(t) && Forgets(t, after, source, affected, now)
    ensures QueueInv(after)
  {
    ForgottenKeepsJobs(t, after, source, affected, now);
    ForgottenKeepsHeads(t, after, source, affected, now);
    ForgottenKeepsPlaces(t, after, source, affected, now);
  }

  lemma ForgetKeeps(t: Tables, source: Id, affected: set<Id>, now: Time)
    requires QueueInv(t) && !IsTombstoned(t, source)
    ensures QueueInv(Forgotten(t, source, affected, now))
  {
    assert Forgets(t, Forgotten(t, source, affected, now), source, affected, now);
    ForgottenKeeps(t, Forgotten(t, source, affected, now), source, affected, now);
  }

  predicate Completes(t: Tables, after: Tables, job: Job, now: Time) {
    && job.id in t.jobs && job == t.jobs[job.id] && job.phase.Processing? && job.source.id in t.heads
    && after.version == t.version + 1 && after.sources == t.sources
    && after.heads == t.heads[job.source.id := t.heads[job.source.id].(published := Some(job.source.revision))]
    && after.jobs == t.jobs[job.id := job.(phase := Complete(now))]
  }

  lemma CompletedKeepsJobs(t: Tables, after: Tables, job: Job, now: Time)
    requires JobsSound(t) && Completes(t, after, job, now)
    ensures JobsSound(after)
  {
    forall id | id in after.jobs ensures after.jobs[id].id == id && JobSound(after, after.jobs[id]) {
      assert t.jobs[id].id == id && JobSound(t, t.jobs[id]);
    }
  }

  lemma CompletedKeepsHeads(t: Tables, after: Tables, job: Job, now: Time)
    requires HeadsSound(t) && SourcesSound(t) && Completes(t, after, job, now) && JobSound(t, job)
    ensures HeadsSound(after) && SourcesSound(after)
  {
  }

  lemma CompletedKeeps(t: Tables, after: Tables, job: Job, now: Time)
    requires QueueInv(t) && Completes(t, after, job, now)
    ensures QueueInv(after)
  {
    CompletedKeepsJobs(t, after, job, now);
    CompletedKeepsHeads(t, after, job, now);
    UniqueKept(t, after);
    ServedUnchanged(t, after);
  }

  lemma PublishKeeps(t: Tables, lease: Lease)
    requires QueueInv(t)
    ensures QueueInv(Commit(t, Publish(t, lease)))
  {
    if Publishes(t, lease) {
      CompletedKeeps(t, Commit(t, Publish(t, lease)), t.jobs[lease.jobId], lease.now);
    }
  }

  lemma ClaimKeeps(t: Tables, claim: ClaimInput)
    requires QueueInv(t)
    ensures QueueInv(Commit(t, Claim(t, claim)))
  {
    if NextJob(t, claim).Some? { SaveKeeps(t, Claim(t, claim).value.value); }
  }

  lemma RenewKeeps(t: Tables, lease: Lease, leaseMs: int)
    requires QueueInv(t)
    ensures QueueInv(Commit(t, Renew(t, lease, leaseMs)))
  {
    if Renew(t, lease, leaseMs).Done? { SaveKeeps(t, Renew(t, lease, leaseMs).value); }
  }

  lemma StageKeeps(t: Tables, lease: Lease, stage: Stage)
    requires QueueInv(t)
    ensures QueueInv(Commit(t, PutStage(t, lease, stage)))
  {
    if PutStage(t, lease, stage).Done? { SaveKeeps(t, t.jobs[lease.jobId].(stage := Some(stage))); }
  }

  lemma FailKeeps(t: Tables, lease: Lease, reason: Reason, message: string)
    requires QueueInv(t)
    ensures QueueInv(Commit(t, Fail(t, lease, reason, message)))
  {
    if LeaseRefusal(t, lease).None? { SaveKeeps(t, t.jobs[lease.jobId].(phase := Failed(reason, message))); }
  }

  lemma RetryKeeps(t: Tables, id: Id)
    requires QueueInv(t)
    ensures QueueInv(Commit(t, Retry(t, id)))
  {
    if Retry(t, id).Done? { SaveKeeps(t, Retry(t, id).value); }
  }

  lemma RequeueKeeps(t: Tables, id: Id, engine: string)
    requires QueueInv(t)
    ensures QueueInv(Commit(t, Requeue(t, id, engine)))
  {
    if Requeue(t, id, engine).Done? { SaveKeeps(t, Requeue(t, id, engine).value); }
  }

  /** Every transaction keeps the queue invariant. */
  lemma StepKeepsQueue(t: Tables, op: Op)
    requires QueueInv(t)
    ensures QueueInv(Step(t, op))
  {
    hide QueueInv, Commit, Enqueue, Claim, Renew, PutStage, Publish, Fail, Retry, Requeue, Affected, Forgotten;
    match op
    case EnqueueOp(input) => EnqueueKeeps(t, input);
    case ClaimOp(claim) => ClaimKeeps(t, claim);
    case RenewOp(lease, leaseMs) => RenewKeeps(t, lease, leaseMs);
    case StageOp(lease, stage) => StageKeeps(t, lease, stage);
    case PublishOp(lease) => PublishKeeps(t, lease);
    case FailOp(lease, reason, message) => FailKeeps(t, lease, reason, message);
    case RetryOp(id) => RetryKeeps(t, id);
    case RequeueOp(id, engine) => RequeueKeeps(t, id, engine);
    case ForgetOp(source, now) =>
      if !IsTombstoned(t, source) { ForgetKeeps(t, source, Affected(t.graph, source), now); }
  }

  /**
   * In every state of every run: one job at most per source revision and exactly one at an accepted one,
   * unfinished jobs only at the accepted revision of a live source, cancelled ones only where superseded
   * or forgotten, and nothing published beyond what was accepted.
   */
  lemma {:induction false} BehaviourKeepsQueue(states: seq<Tables>, ops: seq<Op>, i: nat)
    requires Behaviour(states, ops) && i < |states|
    ensures QueueInv(states[i])
  {
    hide Step;
    if i > 0 {
      BehaviourKeepsQueue(states, ops, i - 1);
      assert states[i] == Step(states[i - 1], ops[i - 1]);
      StepKeepsQueue(states[i - 1], ops[i - 1]);
    }
  }
}
