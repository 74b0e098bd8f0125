# Verified model of the knowledge store, the agent loop and the context strategies

A Dafny model of four parts of the repository, with proofs of what they promise over all inputs and all runs.

**Knowledge store** (`packages/plugin-knowledge-postgres/src/knowledge-store.adapter.ts`, with the checks and rewrites it
shares from `packages/core/src/knowledge/knowledge.entity.functions.ts`). One scope of the store is a set of tables; each
adapter method is one transaction on them. `KnowledgeModel` has the records, `stripKnowledgeRevisions`,
`corroborateKnowledgeMemory` and `validateKnowledgeStage`; `KnowledgeTables` has every transaction as a function from
tables to an answer and the tables committed; `KnowledgeIndex` has the adapter itself, a class with a field for each
table whose methods run the statements in the order of the source and are proved to commit exactly what those functions
say, or to roll back. `KnowledgeProtocol` says what one transaction lets the later ones do. Over runs of transactions:
`KnowledgeQueue` (jobs and heads), `KnowledgeGraph` (what forgetting does), `KnowledgePublish` and `KnowledgeLaws` (what
publishing does), `KnowledgeRuns` (every run). `KnowledgeTraverse` is the bounded graph read, against distance and against
the in-memory reference, and `KnowledgeExample` a run that is a counterexample.

**Agent loop** (`packages/plugin-agent-loop/src/loop.ts` with its response gate and request attempt). `AgentTranscript` has
messages, the gate and pairing; `AgentProgress` the breaker's fold; `AgentLoop` the loop state folded by `recover`, `recut`,
`decide` and `nextInput`, with every answer of the provider and the host as an input; `AgentRuns` what every run keeps;
`AgentLog` what a run records, for every completion order of concurrent tools and every point where it may stop;
`AgentSend` the request of one step, as a function to what it comes to and as a class over the three references of the
source, with a ghost trace of what was checked, dispatched, shown and recovered; `AgentRunner` the loop itself, which
takes each step through that request.

**Context strategies**. `WindowPlanner` searches spill and drop plans under a budget for an arbitrary cost of action
lists; `SummaryPlanner` folds turns into summaries over a growing log, with its claim and settle guard.

**Publish order** (`scripts/publish-plan.ts`): `PublishOrder`, a layered topological sort over packages whose names may
repeat.

`Prelude`, `Closure` and `MemoryPolicy` hold shared values, recursive queries and the phases of maintenance.

Four promises do not hold as one would state them; each has a counterexample and an exact condition.

- An accepted publication may leave an active inferred memory resting on one it retires itself
  (`KnowledgeExample.InferenceMayBreak`); `KnowledgeRuns.InferenceClosedThroughout` says exactly when not. The stage check
  only excludes explicitly retired supports, not those that fall with the source's earlier revision.
- A planned first step that answers a call instead of running it leaves that answer out of its record, so the log keeps a
  call without a result (`AgentLog.PlannedLogMayBreak`); `AgentLog.LogSoundIff` says exactly when not.
  The comment at `packages/plugin-agent-loop/src/loop.ts:862-864` says such answers are stored in the same record; the
  code does so only for a response of a provider.
- `truncated` also holds for a complete answer when the seeds repeat (`KnowledgeTraverse.RepeatedSeedTruncates`);
  `KnowledgeTraverse.TruncatedMeans` says exactly when it holds.
- A dependency cycle may go unreported where two packages share a name (`PublishOrder.RepeatedNameHidesCycle`);
  `PublishOrder.StuckIffUnfounded` says for all inputs when something is stuck.

Reads as of an earlier time keep their records and all of their content but the evidence of memories
(`KnowledgeRuns.PublicationKeepsThePast`), with no assumption on retirements: the stage check already requires a retired
record to be active (`packages/core/src/knowledge/knowledge.entity.functions.ts:445-446`), which is what the unguarded
update of the explicit retirement needs.

## Model

| member | source | states |
|---|---|---|
| KnowledgeRuns.BehaviourSound | packages/plugin-knowledge-postgres/src/knowledge-store.adapter.ts:273-388 | in every state of every run: `record_sources` is exactly the revisions in stored provenance, `memory_supports` exactly the stored inferences, no record names a missing one, every citation is of stored evidence, every record with a publisher on record has a live one, and no memory rests on itself |
| KnowledgeRuns.StepKeepsSound | packages/plugin-knowledge-postgres/src/knowledge-store.adapter.ts:274-420 | each transaction, accepted or refused, keeps that invariant |
| KnowledgeQueue.BehaviourKeepsQueue | packages/plugin-knowledge-postgres/src/knowledge-store.adapter.ts:274-318 | in every state of every run: at most one job per source revision and exactly one at an accepted revision above 0; unfinished jobs sit at the accepted revision of a live source; a cancelled one is superseded or forgotten; published never exceeds accepted |
| KnowledgeQueue.StepKeepsQueue | packages/plugin-knowledge-postgres/src/knowledge-store.adapter.ts:274-420 | each transaction keeps the queue invariant |
| KnowledgeQueue.EnqueueKeeps | packages/plugin-knowledge-postgres/src/knowledge-store.adapter.ts:274-299 | accepting a revision, with its older unfinished jobs cancelled, keeps it |
| KnowledgeQueue.ForgetKeeps | packages/plugin-knowledge-postgres/src/knowledge-store.adapter.ts:515-556 | forgetting, with the affected sources queued again, keeps it |
| KnowledgeRuns.Onwards | packages/plugin-knowledge-postgres/src/knowledge-store.adapter.ts:286-291 | between any two states of a run accepted revisions never decrease, tombstones stay as set, and an unchanged version means unchanged records |
| KnowledgeRuns.VersionDeterminesGraph | packages/plugin-knowledge-postgres/src/knowledge-store.adapter.ts:109-113 | two states of a run at one version hold the same memories, entities, assertions, chunks and ties |
| KnowledgeRuns.VersionConsumedOnce | packages/plugin-knowledge-postgres/src/knowledge-store.adapter.ts:379 | a publication or forget that takes effect consumes the version: no later one of the run sees it again |
| KnowledgeRuns.PublishedStageIsCurrent | packages/plugin-knowledge-postgres/src/knowledge-store.adapter.ts:337-345 | what a publication stores was staged earlier in the run under the same job at exactly this version, with no publication or forget in between |
| KnowledgeRuns.FencedOut | packages/plugin-knowledge-postgres/src/knowledge-store.adapter.ts:95-108 | a holder of a token the job no longer has changes nothing by renewing, staging, failing or publishing |
| KnowledgeRuns.SupersededTokenIsPowerless | packages/plugin-knowledge-postgres/src/knowledge-store.adapter.ts:306-318 | with fresh tokens, once a job is claimed again the earlier claim can never change anything in any later state |
| KnowledgeRuns.TombstonedIsGone | packages/plugin-knowledge-postgres/src/knowledge-store.adapter.ts:515-557 | of a forgotten source nothing is left: no stored revision, no citation, no record it published, only cancelled jobs |
| KnowledgeRuns.ForgottenForGood | packages/plugin-knowledge-postgres/src/knowledge-store.adapter.ts:515-557 | once forgotten, in every later state of the run the tombstone is as it was and nothing of the source is stored or cited again |
| KnowledgeRuns.AffectedIsLeast | packages/plugin-knowledge-postgres/src/knowledge-store.adapter.ts:217-245 | the affected sources are inside every set that holds the forgotten source and is closed under the links |
| KnowledgeRuns.AffectedClosed | packages/plugin-knowledge-postgres/src/knowledge-store.adapter.ts:217-245 | the affected sources hold the forgotten one and are closed under the links |
| KnowledgeRuns.ForgetPurges | packages/plugin-knowledge-postgres/src/knowledge-store.adapter.ts:525-553 | forgetting removes exactly the records that an affected source proves and leaves every other record as it was |
| KnowledgeRuns.ForgetRequeues | packages/plugin-knowledge-postgres/src/knowledge-store.adapter.ts:542-548 | every staged extraction is cleared, and each other affected live source has its accepted revision queued again |
| KnowledgeRuns.InferenceClosedThroughout | packages/plugin-knowledge-postgres/src/knowledge-store.adapter.ts:177-206 | every active inferred memory rests on active memories in all states of a run if and only if no publication of the run infers from a memory it retires itself |
| KnowledgeExample.InferenceMayBreak | packages/plugin-knowledge-postgres/src/knowledge-store.adapter.ts:368-374 | a run of eight transactions from empty tables: its last one is an accepted publication after which an active memory rests on a retired one |
| KnowledgeRuns.PublishedRevisionOnly | packages/plugin-knowledge-postgres/src/knowledge-store.adapter.ts:348-372 | after a source publishes a revision, every current record that cites the source cites that revision only |
| KnowledgeRuns.PublicationKeepsThePast | packages/plugin-knowledge-postgres/src/knowledge-store.adapter.ts:164-188 | the memories and assertions known at a time before a publication are those known at that time after it, each with the content it had: only a memory's spans and mentions, and an end set now, may differ |
| KnowledgeProtocol.ClaimHolds | packages/plugin-knowledge-postgres/src/knowledge-store.adapter.ts:306-318 | in the tables a claim leaves its holder's lease is accepted at exactly the times before it ends |
| KnowledgeProtocol.ClaimExcludes | packages/plugin-knowledge-postgres/src/knowledge-store.adapter.ts:308-311 | in those tables no claim is handed the job before the lease ends, and from then on a claim of its engine may be |
| KnowledgeProtocol.ClaimLasts | packages/plugin-knowledge-postgres/src/knowledge-store.adapter.ts:306-318 | over a run: until the holder renews, publishes or fails, a claim comes at or after the end of the lease, the source is enqueued, or something is forgotten, the lease is accepted at exactly the times before it ends and the job claimable at exactly the others, by claims of its engine |
| KnowledgeProtocol.RenewHolds | packages/plugin-knowledge-postgres/src/knowledge-store.adapter.ts:319-328 | a renewal holds the job for the new duration from the renewal on |
| KnowledgeProtocol.RetryRestores | packages/plugin-knowledge-postgres/src/knowledge-store.adapter.ts:384-402 | a failed job, retried, is queued with the attempt and stage it had, there for any claim of its engine |
| KnowledgeProtocol.RequeueRestarts | packages/plugin-knowledge-postgres/src/knowledge-store.adapter.ts:403-420 | a failed job, requeued, starts its attempts again and keeps its stage only under the same engine |
| KnowledgeProtocol.StagedIsValid | packages/plugin-knowledge-postgres/src/knowledge-store.adapter.ts:329-336 | an accepted stage is on its job, passes the stage checks of the tables it leaves, and leaves the lease accepted |
| KnowledgeProtocol.StagedLasts | packages/plugin-knowledge-postgres/src/knowledge-store.adapter.ts:329-345 | over a run: a stage once accepted passes the stage checks if and only if no publication or forget has taken effect since |
| KnowledgeProtocol.EnqueueReplays | packages/plugin-knowledge-postgres/src/knowledge-store.adapter.ts:284-285 | enqueuing the same evidence again answers with the same job and changes nothing |
| KnowledgeProtocol.EnqueueFences | packages/plugin-knowledge-postgres/src/knowledge-store.adapter.ts:292-294 | a new revision takes every job of the source away from whoever holds it |
| KnowledgeProtocol.ForgetIdempotent | packages/plugin-knowledge-postgres/src/knowledge-store.adapter.ts:519 | forgetting twice is forgetting once |
| KnowledgeProtocol.PublishIdempotent | packages/plugin-knowledge-postgres/src/knowledge-store.adapter.ts:341 | publishing a completed job again succeeds and changes nothing |
| KnowledgePublish.PublicationMeaning | packages/plugin-knowledge-postgres/src/knowledge-store.adapter.ts:355-379 | the statements of a publication amount, table by table, to its declared meaning |
| KnowledgePublish.SurvivorsMeaning | packages/plugin-knowledge-postgres/src/knowledge-store.adapter.ts:164-206 | a publication retires exactly the active memories in the closure of the source's own, the explicitly retired and the emptied ones, and strips exactly the stale spans of the rest |
| KnowledgePublish.RetiredInTwoRounds | packages/plugin-knowledge-postgres/src/knowledge-store.adapter.ts:370-372 | the two recursive updates together retire what one closure from all the seeds would |
| KnowledgePublish.PreparedReplaces | packages/plugin-knowledge-postgres/src/knowledge-store.adapter.ts:355-372 | taking the staged identities first retires nothing but the staged ids themselves |
| KnowledgePublish.StripMeans | packages/core/src/knowledge/knowledge.entity.functions.ts:195-200 | a stripped memory keeps exactly the spans that are not of another revision of the source, and some are left |
| KnowledgePublish.CorroborateAllMeaning | packages/plugin-knowledge-postgres/src/knowledge-store.adapter.ts:207-215 | corroborations add exactly their own revisions to the memories they name and touch no other |
| KnowledgeModel.Mentions | packages/core/src/knowledge/knowledge.entity.functions.ts:158-162 | a memory's mentions are listed once each, and without stored mentions they are revisions its provenance cites |
| KnowledgeLaws.PublishedSound | packages/plugin-knowledge-postgres/src/knowledge-store.adapter.ts:122-162 | an admitted publication keeps every tie between the record tables |
| KnowledgeLaws.RowsStayExact | packages/plugin-knowledge-postgres/src/knowledge-store.adapter.ts:122-124 | after a publication a source row exists exactly where a stored record cites that revision |
| KnowledgeLaws.SurvivorsRestOnSurvivors | packages/plugin-knowledge-postgres/src/knowledge-store.adapter.ts:177-186 | no memory active before and after a publication rests, at any remove, on one it retired |
| KnowledgeLaws.InferenceClosedKept | packages/plugin-knowledge-postgres/src/knowledge-store.adapter.ts:368-374 | one publication keeps inferences on active memories exactly when no staged inference rests on a memory it retires |
| KnowledgeLaws.AcyclicKept | packages/core/src/knowledge/knowledge.entity.functions.ts:426-430 | the stage check on supports keeps the graph of all stored inferences free of cycles |
| KnowledgeLaws.WalkIsFound | packages/core/src/knowledge/knowledge.entity.functions.ts:426-430 | the recursive check finds every walk along staged supports that comes back |
| KnowledgeLaws.OneRevisionCited | packages/plugin-knowledge-postgres/src/knowledge-store.adapter.ts:346-349 | current records that cite the published source cite the published revision |
| KnowledgeLaws.PastIsStable | packages/plugin-knowledge-postgres/src/knowledge-store.adapter.ts:164-206 | the same of every graph a publication may leave |
| KnowledgeGraph.PurgedKeeps | packages/plugin-knowledge-postgres/src/knowledge-store.adapter.ts:529-553 | a purge keeps a record exactly when none of the sources proves it, unchanged |
| KnowledgeGraph.AllOrNothing | packages/plugin-knowledge-postgres/src/knowledge-store.adapter.ts:217-245 | a record's sources are all affected and it goes, or none is and it stays |
| KnowledgeGraph.SurvivingMemory | packages/plugin-knowledge-postgres/src/knowledge-store.adapter.ts:529-541 | a memory that stays keeps its entities and what it is inferred from |
| KnowledgeGraph.SurvivingAssertion | packages/plugin-knowledge-postgres/src/knowledge-store.adapter.ts:532-541 | an assertion that stays keeps its endpoints |
| KnowledgeGraph.PurgedSound | packages/plugin-knowledge-postgres/src/knowledge-store.adapter.ts:529-553 | what a purge leaves is a sound graph in which no record cites, or was published by, a purged source |
| Closure.Reach | packages/plugin-knowledge-postgres/src/knowledge-store.adapter.ts:179-185 | a recursive query returns a set that holds its seeds and is closed |
| Closure.ReachLeast | packages/plugin-knowledge-postgres/src/knowledge-store.adapter.ts:179-185 | and no smaller set would do |
| Closure.ReachUnion | packages/plugin-knowledge-postgres/src/knowledge-store.adapter.ts:370-372 | two recursive queries reach what one from both seed sets reaches |
| KnowledgeIndex.Recursive | packages/plugin-knowledge-postgres/src/knowledge-store.adapter.ts:179-185 | the rounds of a recursive query end at the least closed set |
| KnowledgeIndex.PostgresIndex.EnqueueSource | packages/plugin-knowledge-postgres/src/knowledge-store.adapter.ts:274-299 | `enqueue` on the tables: its answer, and the tables it commits or leaves as they were |
| KnowledgeIndex.PostgresIndex.ClaimJob | packages/plugin-knowledge-postgres/src/knowledge-store.adapter.ts:306-318 | `claim` hands out the claimable job recorded first, under the new token and lease |
| KnowledgeIndex.PostgresIndex.Leased | packages/plugin-knowledge-postgres/src/knowledge-store.adapter.ts:95-108 | the checks of a lease, in order, with the job when all pass |
| KnowledgeIndex.PostgresIndex.RenewLease | packages/plugin-knowledge-postgres/src/knowledge-store.adapter.ts:319-328 | `renew` extends exactly the held lease |
| KnowledgeIndex.PostgresIndex.StageExtraction | packages/plugin-knowledge-postgres/src/knowledge-store.adapter.ts:329-336 | `stage` stores a validated extraction under the lease |
| KnowledgeIndex.PostgresIndex.PublishExtraction | packages/plugin-knowledge-postgres/src/knowledge-store.adapter.ts:337-383 | `publish` commits the published tables, is a no-op on a complete job, or rolls everything back with its first refusal |
| KnowledgeIndex.PostgresIndex.FailJob | packages/plugin-knowledge-postgres/src/knowledge-store.adapter.ts:384-389 | `fail` records the failure under the lease |
| KnowledgeIndex.PostgresIndex.RetryJob | packages/plugin-knowledge-postgres/src/knowledge-store.adapter.ts:390-402 | `retry` queues a failed current job again |
| KnowledgeIndex.PostgresIndex.RequeueJob | packages/plugin-knowledge-postgres/src/knowledge-store.adapter.ts:403-420 | `requeue` moves a failed current job to an engine that holds none |
| KnowledgeIndex.PostgresIndex.ForgetSource | packages/plugin-knowledge-postgres/src/knowledge-store.adapter.ts:515-557 | `forget` commits the tombstone, the purge and the requeues, or nothing when already forgotten |
| KnowledgeIndex.PostgresIndex.Rollback | packages/plugin-knowledge-postgres/src/knowledge-store.adapter.ts:339-382 | a refused transaction restores every table |
| KnowledgeIndex.PostgresIndex.TakeIdentities | packages/plugin-knowledge-postgres/src/knowledge-store.adapter.ts:350-367 | identities are taken one by one: all of them, or the first conflict |
| KnowledgeIndex.ClosingSteps | packages/plugin-knowledge-postgres/src/knowledge-store.adapter.ts:368-370 | closing the source, ending the listed records and following supports in turn retires exactly the active memories that the source's own and the listed ones reach, and closes exactly the active assertions that cite the source or are listed |
| KnowledgeIndex.PostgresIndex.CloseDependents | packages/plugin-knowledge-postgres/src/knowledge-store.adapter.ts:177-186 | everything inferred from the source's or the given memories is retired |
| KnowledgeIndex.PostgresIndex.StripRevisions | packages/plugin-knowledge-postgres/src/knowledge-store.adapter.ts:193-206 | stale memories lose other revisions of the source one by one; the emptied ones are retired and returned |
| KnowledgeIndex.PostgresIndex.InsertEntities | packages/plugin-knowledge-postgres/src/knowledge-store.adapter.ts:143-154 | entities merge into stored ones, or the first that names another is refused |
| KnowledgeIndex.PostgresIndex.InsertMemories | packages/plugin-knowledge-postgres/src/knowledge-store.adapter.ts:125-135 | memories, their source rows and their supports are added |
| KnowledgeIndex.PostgresIndex.InsertChunks | packages/plugin-knowledge-postgres/src/knowledge-store.adapter.ts:136-142 | chunks that equal their quote are added, or the first that does not is refused |
| KnowledgeIndex.PostgresIndex.InsertAssertions | packages/plugin-knowledge-postgres/src/knowledge-store.adapter.ts:155-162 | assertions and their source rows are added |
| KnowledgeIndex.PostgresIndex.CorroborateMemories | packages/plugin-knowledge-postgres/src/knowledge-store.adapter.ts:208-215 | corroborations are applied in order to active memories, or the first without one is refused |
| KnowledgeIndex.PostgresIndex.RequeueAffected | packages/plugin-knowledge-postgres/src/knowledge-store.adapter.ts:542-548 | stages are cleared and the affected current jobs queued |
| KnowledgeIndex.PostgresIndex.PurgeDerived | packages/plugin-knowledge-postgres/src/knowledge-store.adapter.ts:525-541 | memories and assertions that rest on an affected source go, with their supports and rows |
| KnowledgeTraverse.TraverseSound | packages/plugin-knowledge-postgres/src/knowledge-store.adapter.ts:246-271 | every answer has at most `limit` entities and `limit` assertions, all stored, visible at the perspective and within reach, and both ends of each assertion are in it |
| KnowledgeTraverse.CompleteAnswer | packages/plugin-knowledge-postgres/src/knowledge-store.adapter.ts:246-271 | an answer not marked truncated has exactly the visible assertions with an end less than min(depth, 3) hops from the seeds, and exactly the stored entities within min(depth, 3) hops |
| KnowledgeTraverse.TruncatedMeans | packages/plugin-knowledge-postgres/src/knowledge-store.adapter.ts:248-270 | `truncated` holds if and only if the seeds repeat or exceed the limit, or an assertion within reach is missing from the answer |
| KnowledgeTraverse.RepeatedSeedTruncates | packages/plugin-knowledge-postgres/src/knowledge-store.adapter.ts:248 | a complete answer to a query that names a seed twice is marked truncated |
| KnowledgeTraverse.TraverseRefines | packages/core/src/knowledge/knowledge.entity.functions.ts:292-322 | for every graph and query the store selects the same assertions in the same order, and the same entities and flag, as the in-memory traversal |
| KnowledgeTraverse.VisitBounded | packages/plugin-knowledge-postgres/src/knowledge-store.adapter.ts:249-264 | each hop stays within the limits and within reach, and only adds |
| KnowledgeTraverse.VisitExact | packages/plugin-knowledge-postgres/src/knowledge-store.adapter.ts:249-264 | from exact hops on, an uncut result is all within reach and a cut one misses something for good |
| KnowledgeTraverse.HopExact | packages/plugin-knowledge-postgres/src/knowledge-store.adapter.ts:251-263 | a hop that cuts nothing finds everything one hop further |
| KnowledgeTraverse.HopCut | packages/plugin-knowledge-postgres/src/knowledge-store.adapter.ts:253-263 | a hop that cuts leaves out something that no later hop adds |
| KnowledgeTraverse.CoveredStable | packages/plugin-knowledge-postgres/src/knowledge-store.adapter.ts:250 | once a hop finds nothing new no later one would |
| AgentRuns.StepsBounded | packages/plugin-agent-loop/src/loop.ts:1204-1210 | a run takes at most max(1, maxSteps) steps, and goes on only below the cap |
| AgentRuns.StreaksCount | packages/plugin-agent-loop/src/loop.ts:953-1091 | the malformed and cut counts are the trailing runs of those outcomes, below the malformed limit and at most 2 cuts; a wait leaves them |
| AgentRuns.UsageSums | packages/plugin-agent-loop/src/loop.ts:1053-1178 | a run's usage is the sum over the responses it settled with, cut ones included, malformed ones not |
| AgentRuns.ReportSums | packages/plugin-agent-loop/src/loop.ts:1161-1177 | tool calls are those of the decided responses, and the last usage is the last provider response's |
| AgentRuns.RunFolds | packages/plugin-agent-loop/src/loop.ts:1121-1126 | the run's breaker state is the breaker's fold over its decided signatures, and the run ends degenerate exactly when that fold breaks |
| AgentRuns.BreakerEndsRun | packages/plugin-agent-loop/src/loop.ts:1121-1137 | a run that goes on has decided at most k * breakAfter counted steps with k distinct signatures |
| AgentRuns.BlocksHoldAllText | packages/plugin-agent-loop/src/loop.ts:503-511 | the blocks of a run hold all its text in order, none of it twice |
| AgentRuns.TextKept | packages/plugin-agent-loop/src/loop.ts:503-511 | the final text is the last block with any text, what a continuation has not ended is carried, and at every end nothing is; a text-less broken run says why, a waiting one has none |
| AgentRuns.NextText | packages/plugin-agent-loop/src/loop.ts:1069-1165 | what one step does to the carried and the final text |
| AgentRuns.BuffersPaired | packages/plugin-agent-loop/src/loop.ts:985-1038 | from a well-paired input, with durable steering that is well paired itself, both buffers stay well paired through every kind of step, steering and compaction, and what was added is never rewritten |
| AgentRuns.CompactedPaired | packages/plugin-agent-loop/src/loop.ts:998-1035 | compaction keeps pairing, because it keeps from an assistant message on |
| AgentTranscript.CutElsewhereBreaks | packages/plugin-agent-loop/src/loop.ts:1000-1006 | keeping from any other message can leave a result without its call |
| AgentRuns.BufferIsWhole | packages/plugin-agent-loop/src/loop.ts:993-1038 | without compaction the buffer is the input and all that was added, in order |
| AgentRuns.CorrectionsCounted | packages/plugin-agent-loop/src/loop.ts:972-1176 | the reported corrections are the correctives and nudges added to the tail |
| AgentRuns.FallbacksBounded | packages/plugin-agent-loop/src/loop.ts:953-983 | a run falls back from streaming at most once more often than its steps are malformed |
| AgentProgress.FoldMeans | packages/plugin-agent-loop/src/loop.ts:431-452 | the fold keeps exactly the set of nonempty signatures and the length of the longest suffix of them that all occurred earlier |
| AgentProgress.StaleSuffixUnique | packages/plugin-agent-loop/src/loop.ts:441-442 | that length is determined |
| AgentProgress.BreakerBound | packages/plugin-agent-loop/src/loop.ts:431-452 | more than k * breakAfter counted signatures among k distinct ones contain a break |
| AgentProgress.NudgedOnce | packages/plugin-agent-loop/src/loop.ts:446-449 | between two nudges a new signature appeared: no stale streak is nudged twice |
| AgentProgress.NudgedBeforeBreak | packages/plugin-agent-loop/src/loop.ts:446-449 | a streak that reaches the nudge count was nudged, so a break comes after its nudge |
| AgentTranscript.PassesIff | packages/plugin-agent-loop/src/response-gate.entity.functions.ts:71-105 | a response passes the gate exactly when its ids are distinct and, unless calls are answered one by one, every call names a tool and decodes |
| AgentTranscript.PairedFrom | packages/plugin-agent-loop/src/loop.ts:1000-1006 | a paired buffer may be cut before any assistant message |
| AgentTranscript.PendingAppends | packages/plugin-agent-loop/src/loop.ts:998 | reading on over appended messages continues where the first left off |
| AgentTranscript.ResponsePending | packages/core/src/internal/mapping.entity.functions.ts:279-310 | after a response and some results, unanswered is what those leave of its calls |
| AgentTranscript.ResponsePaired | packages/plugin-agent-loop/src/loop.ts:919 | a response with one result for each call is well paired |
| AgentLoop.Results | packages/plugin-agent-loop/src/loop.ts:902-910 | one result for each call, in call order, answered or run |
| AgentLog.LogSound | packages/plugin-agent-loop/src/loop.ts:865-908 | wherever a run's log stops, in whatever order its tools return, no response is recorded over unanswered calls, each result answers one, and what is unanswered is due to run; a whole log leaves none |
| AgentLog.LogSoundIff | packages/plugin-agent-loop/src/loop.ts:862-878 | that holds of every prefix if and only if the host did not plan, with calls to be answered one by one and under distinct ids, a call that names no active tool or whose parameters are refused |
| AgentLog.OmittedUnsound | packages/plugin-agent-loop/src/loop.ts:876-878 | a whole planned response recorded without the answers of its calls leaves calls unanswered that will never run |
| AgentLog.PlannedLogMayBreak | packages/plugin-agent-loop/src/loop.ts:876-878 | a run whose planned step calls a missing tool, with calls answered one by one: some prefix of its log is not sound |
| AgentLog.LogSteps | packages/plugin-agent-loop/src/loop.ts:953-1152 | step indices never decrease along the log |
| AgentLog.OrderIsDue | packages/plugin-agent-loop/src/loop.ts:902-908 | in whatever order they return, the calls that run are the due ones, each once |
| AgentLog.ResultsPending | packages/plugin-agent-loop/src/loop.ts:890-908 | after the response and k results exactly the other due calls are unanswered |
| AgentLog.LogSaysTail | packages/plugin-agent-loop/src/loop.ts:953-1158 | what a run records is what its steps add, message for message, durable steering left out of both and results aside |
| AgentLog.AddedIsTail | packages/plugin-agent-loop/src/loop.ts:974-1158 | what its steps add, durable steering included, is the tail of the run |
| AgentLog.NextAdds | packages/plugin-agent-loop/src/loop.ts:974-1158 | what a step adds to the tail: steering, its settled messages, and what the loop says to the next step |
| AgentSend.RequestBounded | packages/plugin-agent-loop/src/loop.ts:663-815 | one step's request, whatever is answered: at most four dispatches, one stream fallback and one claim of each recovery; every event follows only what may come before it, so each dispatch comes right after its own passed check; no dispatch after a shown delta or in a planned step; a response of a provider was dispatched; a callback's own failure is the last event and the step's failure; health is reported exactly |
| AgentSend.RequestKeeps | packages/plugin-agent-loop/src/loop.ts:788-815 | the same from any silent attempt on, within what the attempt has left |
| AgentSend.AttemptKeeps | packages/plugin-agent-loop/src/loop.ts:663-786 | one attempt: at most one dispatch and one more behind a fallback, none when planned, and what its last event says of how it ended |
| AgentSend.HeardLinked | packages/plugin-agent-loop/src/loop.ts:720-732 | the events of a stream's parts follow one another as parts and their showings do, and the first part that cannot be shown ends them |
| AgentSend.RequestSpends | packages/plugin-agent-loop/src/loop.ts:757-767 | a request gives up streaming if and only if it falls back |
| AgentSend.Request | packages/plugin-agent-loop/src/loop.ts:788-821 | the request of a step ends, falls back and dispatches as specified, within those bounds |
| AgentSend.StepSender.Send | packages/plugin-agent-loop/src/loop.ts:788-815 | the mutually recursive send leaves the events, attempt, failure of its own and outcome that the specified request has |
| AgentSend.StepSender.Recover | packages/plugin-agent-loop/src/loop.ts:791-811 | a recovery leaves those of its specification: refused and nothing happens, or claimed, then declined, failed, or agreed to and sent again |
| AgentSend.StepSender.Attempt | packages/plugin-agent-loop/src/loop.ts:663-786 | an attempt leaves those of its specification, and tells whether any part arrived |
| AgentSend.StepSender.Stream | packages/plugin-agent-loop/src/loop.ts:718-768 | a streamed request leaves those of its specification: it falls back exactly when nothing arrived and the end is one another request may not meet |
| AgentSend.StepSender.FallBack | packages/plugin-agent-loop/src/loop.ts:757-767 | a fallback settles the attempt, is shown, and is sent under a check of its own |
| AgentSend.StepSender.Fold | packages/plugin-agent-loop/src/loop.ts:720-732 | the parts are heard in order up to the first that cannot be shown; a nonempty delta makes the request visible |
| AgentSend.StepSender.Generate | packages/plugin-agent-loop/src/loop.ts:684-697 | a settled request is dispatched exactly when its check passes, and ends as the provider or the check does |
| AgentSend.ClaimsOnce | packages/plugin-agent-loop/src/request-attempt.entity.functions.ts:3-13 | each recovery is granted once, neither rearms the other, and none for overflow once something is visible |
| AgentRunner.RunLoop | packages/plugin-agent-loop/src/loop.ts:1181-1228 | a whole run: each step is the one the world makes of the state before it, and the run ends as the last state and the world of the next step say, by its phase, by a wait, by a failed request or by a failed decision |
| AgentRunner.RunSteps | packages/plugin-agent-loop/src/loop.ts:1204-1210 | the same from any state under way, by recursion |
| AgentRunner.RunBounded | packages/plugin-agent-loop/src/loop.ts:1204-1210 | over a whole run, a failing last request included: at most max(1, maxSteps) steps, four dispatches to a request, and one stream fallback more than malformed steps |
| AgentRunner.RunEndsOnce | packages/plugin-agent-loop/src/loop.ts:1204-1210 | a world has one run: the steps it takes and the way it ends are determined |
| AgentRunner.StepTaken | packages/plugin-agent-loop/src/loop.ts:1186-1200 | one more settled step extends the run, its state and its requests |
| WindowPlanner.DecideSound | packages/plugin-memory-window/src/plugin.adapter.ts:99-147 | with no assumption on costs: a decision only compacts earlier results, spills current ones and drops earlier turns; it fits, or it is the fallback of the two closing phases, which costs no more than nothing or any full-spill plan; the failure is kept for the other phases |
| WindowPlanner.SpillFirstFinds | packages/plugin-memory-window/src/plugin.adapter.ts:126-130 | exactly when the default order finds a plan and which: the fewest spills that fit alone, else all spills and the fewest drops |
| WindowPlanner.CurrentFirstFinds | packages/plugin-memory-window/src/plugin.adapter.ts:131-139 | exactly when the other order finds a plan and which: the first spill count that fits alone or with every drop, and there the fewest drops |
| WindowPlanner.SpillFirstOptimal | packages/plugin-memory-window/src/plugin.adapter.ts:126-130 | where fitting is monotone the default order drops the fewest turns of any fitting plan, and spills fewest where none is dropped |
| WindowPlanner.CurrentFirstOptimal | packages/plugin-memory-window/src/plugin.adapter.ts:131-139 | where fitting is monotone the other order spills the fewest results of any fitting plan, and there drops the fewest turns |
| WindowPlanner.OrdersAgree | packages/plugin-memory-window/src/plugin.adapter.ts:126-140 | where fitting is monotone both orders find a plan in the same cases |
| WindowPlanner.OrdersMayDiffer | packages/plugin-memory-window/src/plugin.adapter.ts:126-140 | without monotonicity they need not: one dropped turn fits, two do not |
| WindowPlanner.CostFallsMonotone | packages/plugin-memory-window/src/plugin.adapter.ts:113-115 | costs that never rise with another spill or drop make fitting monotone |
| WindowPlanner.FallbackSound | packages/plugin-memory-window/src/plugin.adapter.ts:142-145 | the fallback is the cheapest of nothing, every spill, and every spill with each number of drops |
| WindowPlanner.SpillIsLossless | packages/plugin-memory-window/src/plugin.adapter.ts:81-83 | a preview and what recalling from its offset reads are the whole view; the offset is readable exactly when more remains or the view is empty |
| WindowPlanner.ReadOnReads | packages/plugin-memory-window/src/plugin.adapter.ts:163-169 | recalling page after page from an offset reads the rest of the view |
| WindowPlanner.LongestFirstSorts | packages/plugin-memory-window/src/plugin.adapter.ts:117-121 | the spill candidates, none lost, stand longest view first and in log order where equally long |
| SummaryPlanner.SummarySession.Maintain | packages/plugin-memory-summary/src/plugin.adapter.ts:132-195 | one maintenance of a session: what is asked, recorded and folded, and that summaries keep advancing |
| SummaryPlanner.SummarySession.Ask | packages/plugin-memory-summary/src/plugin.adapter.ts:176-187 | a call is paid for only when claimed, and a failed one ends the session's asking |
| SummaryPlanner.SummarySession.Record | packages/core/src/memory/memory-session.ts:134-137 | recording anything else keeps the summaries as they are |
| SummaryPlanner.SlicesPartition | packages/plugin-memory-summary/src/plugin.adapter.ts:148-150 | the folded slices of the recorded summaries are together the log before the first kept turn: no entry twice, none left out |
| SummaryPlanner.SummaryAdvances | packages/plugin-memory-summary/src/plugin.adapter.ts:147-193 | an accepted summary keeps from a strictly later turn and folds exactly the turns between |
| SummaryPlanner.RecordAdvances | packages/core/src/memory/memory-session.ts:134-144 | later entries never join a slice already folded |
| SummaryPlanner.ProposalIs | packages/plugin-memory-summary/src/plugin.adapter.ts:138-150 | a proposal keeps from after the last summary, folds nothing of the current turn, and respects the cooldown unless forced |
| SummaryPlanner.KeepFromIs | packages/plugin-memory-summary/src/plugin.adapter.ts:80-86 | the earliest turn whose tail fits the kept share, or the current turn when none does |
| SummaryPlanner.AskedOnce | packages/plugin-memory-summary/src/summary-attempt.entity.functions.ts:4-14 | in any interleaving no frontier is granted twice, and the guard remembers exactly what was |
| SummaryPlanner.GrantedIff | packages/plugin-memory-summary/src/summary-attempt.entity.functions.ts:4-8 | a claim is granted exactly when no call is out, none failed and the frontier is new |
| SummaryPlanner.NothingAfterFailure | packages/plugin-memory-summary/src/summary-attempt.entity.functions.ts:10-14 | after a failure nothing is granted for the rest of the session |
| SummaryPlanner.FailsBySettling | packages/plugin-memory-summary/src/summary-attempt.entity.functions.ts:10-14 | the guard fails only by settling a granted call without success |
| PublishOrder.OrderPartitions | scripts/publish-plan.ts:72-79 | every package, with repetitions, is either ordered or stuck |
| PublishOrder.OrderRespectsDependencies | scripts/publish-plan.ts:72-79 | every ordered package stands behind a package of each internal name it depends on |
| PublishOrder.OrderIsLayered | scripts/publish-plan.ts:72-79 | the order is the layering that places each package as early as its dependencies allow, by name within a round |
| PublishOrder.StuckIsUnfounded | scripts/publish-plan.ts:72-79 | a package is stuck if and only if it is in a set each of whose members needs a name only members bear |
| PublishOrder.StuckIffUnfounded | scripts/publish-plan.ts:72-79 | some package is stuck if and only if there is a nonempty set of packages each of which needs a name that only members bear |
| PublishOrder.StuckMeansCycle | scripts/publish-plan.ts:118-119 | a nonempty stuck answer always has a dependency cycle |
| PublishOrder.StuckIffCycle | scripts/publish-plan.ts:118-119 | with one package to a name, stuck is nonempty exactly when the internal dependencies have a cycle |
| PublishOrder.RepeatedNameHidesCycle | scripts/publish-plan.ts:72-79 | with a repeated name a cycle may go unreported: a concrete build |
| PublishOrder.SortSorts | scripts/publish-plan.ts:78 | within a round packages stand in name order |

## Left out

- PostgreSQL itself: SQL text, connections, locks (`FOR UPDATE`, `SKIP LOCKED`), migrations and driver errors; a transaction is one atomic step, and a recursive query is its least fixed point.
- Scopes and domains: one scope is modelled; transactions on different scopes touch different rows.
- Identifiers are naturals compared for equality and order; text, JSON encoding and schema decoding are not modelled, nor is the schema check that a record's `knownTo` is not before its `knownFrom`.
- Embeddings, vectors and their one space per scope, in staging and validation.
- `search`, `candidates`, `pending`, `failed`, `status`, `sourceInfo`, `listed` and the identity reads: queries that change nothing.
- The `invalidated` column: nothing sets it, so the statements that read it read false.
- White space in an episode name is space, tab, newline and carriage return only.
- KnowledgeTraverse.TraverseRefines: the order of the returned entities, by id in the store and as listed in memory, is not compared.
- Provider models, tokenizers, rendering, spans, metrics, receipts, events other than those of a request, and the wording of correctives (a message says what it is about).
- The progress signature's text: any function of a step's parts and results; which calls are pollable is inside it.
- Provider-run tools: their calls count and are part of the assistant message, their results are not modelled, nor is the count of failed results.
- Interruption and time: a run may stop after any record, and a callback, request or tool may fail where the source lets it; the race of a summary against its timeout is a failed call.
- AgentLog.LogSoundIff: assumes of a planned first step that it finishes for its tool calls, as the synthetic provider of the source does.
- Window planning: the text of a preview and of a page without the sentence that says how to read on; image and media handling.
- Summaries: digests, the trimming of a reply, a policy used without the guard, the prompt text (any function of a proposal, standing for its fingerprint), and two overlapping maintenances of one session, which only the guard's lemmas cover.
- Publish planning: every other reason to refuse a publish, and registry, git and file access.
