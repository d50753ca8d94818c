# Verified model of the academic-journal plugin

The plugin moves scholarly papers through a pipeline: discover, resolve an open-access
URL, acquire the PDF, ingest it, extract its citations. Everything runs over PostgreSQL
tables, from any number of processes at once. This project models the stateful, timed
and concurrent logic underneath and proves what that logic guarantees over every run.

- **Leased job queue and pipeline** (`Jobs`, `Pipeline`, `Claims`, `Ownership`, `Lease`,
  `LeaseNeeded`, `Resurrection`, `Lifecycle`, `Dedup`, `Stranded`, `StrandedWithoutLease`,
  `Reclaim`, `Finishing`, `Endings`, `Termination`, `Snowball`, `Circuits`, `DeferredRuns`,
  `JobQueue`, `QueueRuns`, `Workers`). One timed state machine whose steps are single
  database statements, clock ticks, handler ends and crashes; `NOW()` is the start of the
  claim transaction, `fail_job` is two statements, claims take row locks and skip locked
  rows. `Circuits` adds the breakers that defer jobs. `JobTable` and `Queue` are the same
  statements and the worker loop as programs; `Witness` builds runs.
- **Citation graph** (`Citations`, `CitationHandler`): edges, pending citations, and
  snowballing bounded by depth and budget, with ingestion, users and other citation
  workers acting in between.
- **Rate limiter** (`RateLimiter`) and **circuit breaker** (`CircuitBreaker`,
  `HttpClient`, `Deferral`).
- **Migration ledger** (`Migrate`, `MigrationRuns`), for any number of packaged files.
- **Discovery** (`Discovery`, `Paging`): de-duplication and the three paging loops.

## Where the code does not do what is said of it

- `acad/infra/worker.py:10-12` says no job is claimed twice. That holds exactly when, for
  every stage, claim latency + batch size × (deadline + recording time) is at most the
  lease (`ExclusionIffFitsLease`). The shipped defaults (batch 10, deadline 1800 s, lease
  3600 s) do not meet it (`DefaultsBreakExclusion`). The same
  condition decides whether a job that has succeeded can be pending or failed after all
  (`SuccessIsFinalIffFitsLease`), and whether a paper can be left with no job to carry it on
  (`NoneStrandedIffFitsLease`).
- "One task per stage per process" (same lines) fails when `start_workers` is called while
  `stop_workers` still waits for cancelled tasks and some stage's task has already ended:
  the stop then clears the new task from the registry and it goes on running. A start is
  safe exactly when no stop is waiting or every stage's task still runs (`StartIsSafeIff`).
- A second pending job for one (paper, stage) can exist once a claimed job is put back: a
  run avoids it exactly when nothing it puts back has its work pending already, or put back
  twice at once (`OnePendingIffNoCollision`). At most one job that was never claimed can
  exist, always.
- The snowball budget is called global (`acad/pipeline/citation_extraction.py:12-13`), but
  each handler compares its own copy of a count it read once. A budget of at least one
  paper is kept exactly when at most one citation worker runs at a time
  (`BudgetKeptIffOneWorker`); with n at a time n times the budget is the exact bound
  (`OvershootIsBounded`, `OvershootIsReached`).
- A bibliography entry whose edge cannot be created at once is dropped
  (`KeptIffDirectEdgesSucceed`, `DroppedIffEveryEdgeFailed`). One whose edge fails in a
  flush, or that another citation worker stores while its target is linked and flushed,
  stays pending for a paper whose handler has come and gone: that is ruled out exactly when
  flush edges cannot fail and citation handlers run one at a time
  (`NoneWaitsIffAloneAndEdgesSucceed`).
- The OpenAlex loop shrinks its last page, which moves that page's window, so it covers the
  result list only for some limits; `DiscoverOpenAlex` states which, in both directions.
- After an oversleep the token bucket discards what accrued. It is never needlessly slow,
  whatever the sleeps, exactly when its burst is one token
  (`NeverNeedlesslySlowIffUnitBurst`); with a larger burst exact sleeps are enough
  (`WaitsOnlyWhenItMust`).
- The breaker agrees with its history exactly when its threshold is at least one.
- `_TRANSITIONS` in `acad/pipeline/state_machine.py` is enforced nowhere and is not used
  here; handlers follow `NEXT_JOB_STAGE`.

## Reading the model

Times are reals and clocks are parameters; rows are never deleted, so a row's position is
its id. A failed statement changes nothing. A crash, and the cancellation of a worker, are
the same step: the worker stops and its rows stay as they are. A claim that commits but
whose reply is lost is, for the queue, a crash followed by a fresh worker. Batch sizes,
lease, deadline, recording time and claim latency are parameters, and the last three bound
how long a worker stays in a phase. `Reachable` means reached by some run from the empty
database; `claimed`, `finished`, `found`, `processed`, `flushed` and `commits` are history.

## Model

| member | source | states |
|---|---|---|
| Claims.OverlappingClaimsAreDisjoint | acad/db/queries.py:325-357 | In every run, with any parameters, claim transactions open at the same time have selected disjoint, existing rows. |
| Claims.SelectedRowsStay | acad/db/queries.py:337-357 | From its selection until its transaction ends, however long the run in between, a selected row stays locked and unchanged, and it is pending or in progress. |
| Jobs.SelectionSize | acad/db/queries.py:337-357 | A claim takes exactly the smaller of its limit and the number of claimable unlocked rows. |
| Jobs.BackoffWindow | acad/db/queries.py:393 | The retry delay after a attempts lies in [2^a/2, 3·2^a/2) for every jitter. |
| Jobs.BackoffDoubles | acad/db/queries.py:393 | Each further attempt doubles it, from half a second plus the jitter. |
| Jobs.JobTable.CreateJob | acad/db/queries.py:299-322 | Returns a pending job for the paper and stage: the existing one with the table unchanged if there is one, otherwise a new last row with the given priority and all its attempts, which claims may take at once. |
| Jobs.JobTable.ClaimJobs | acad/db/queries.py:325-357 | Column by column: takes unlocked rows of the stage that are pending and due, or in progress under a lock older than the lease whatever their attempts, all of them while there is room; leaves none of higher priority, or of the same priority and older; sets status and lock of these rows and changes nothing else. |
| Jobs.JobTable.CompleteJob | acad/db/queries.py:360-368 | Whoever holds it, the row keeps its attempts and no claim of any stage, time or lease takes it again; other rows are untouched; an unknown id changes nothing. |
| Jobs.JobTable.WriteFailure | acad/db/queries.py:383-401 | The attempt count is the one read plus one, whatever the row holds now; on the last attempt no claim ever takes the row again; otherwise claims may take it exactly from the end of its backoff on. |
| Jobs.JobTable.DeferJob | acad/db/queries.py:404-415 | No attempt is spent, the row is unlocked, and claims may take it exactly from the end of the delay on; other rows are untouched. |
| Jobs.JobTable.RetryFailedJobs | acad/db/queries.py:418-445 | Exactly the failed rows of the stage and with the matching error, if these are given, become claimable at once with all their attempts; other rows are untouched, and the count is by how many the failed rows have become fewer. |
| Lease.LeaseExclusion | acad/db/queries.py:325-357 | If every stage's full batch fits the lease then in every run, whatever interleaves and crashes, no job is running or waiting in two workers, and a held job is in progress under its holder's name. |
| Lease.HeldIsFresh | acad/db/queries.py:344-349 | Under that premise a worker never holds a row longer than the lease after its lock time, which the strict comparison of a reclaim then excludes. |
| Lease.SlotClosedForm | acad/infra/job_queue.py:93-123 | The latest start of the n-th handler of a batch is claim latency plus n times deadline plus recording time. |
| Ownership.OwnStep | acad/infra/job_queue.py:65-184 | Any step that claims no held row keeps the whole ownership invariant: row columns, locks, held rows, remembered attempt counts. |
| LeaseNeeded.ExclusionIffFitsLease | acad/infra/worker.py:10-12 | Exclusion holds in all reachable states if and only if every stage's full batch fits the lease. |
| LeaseNeeded.SecondHolder | acad/infra/job_queue.py:93-123 | Whenever some stage's batch does not fit, a state is reached in which two workers hold one row. |
| LeaseNeeded.DefaultsBreakExclusion | acad/infra/worker.py:41-62 | With the configured batch sizes and the default deadline and lease, exclusion fails however fast claims and recording are. |
| Resurrection.SuccessIsFinalIffFitsLease | acad/db/queries.py:360-415 | No step of any run ever changes a succeeded row, if and only if every stage's full batch fits the lease. |
| Resurrection.SuccessUndone | acad/db/queries.py:383-401 | Otherwise, for every stage, a state is reached from which the failure one worker records takes a job another has completed out of `succeeded`. |
| Lifecycle.SucceededIsAbsorbing | acad/db/queries.py:360-368 | Under the premise a succeeded row is never changed again, whatever follows. |
| Lifecycle.AttemptsCountFailures | acad/db/queries.py:371-401 | Under the premise a row's attempt count is the number of failures recorded since its creation or last retry. |
| Lifecycle.LifecycleInvariant | acad/db/queries.py:325-445 | Under the premise: pending or in progress means attempts are left, failed means none, pending rows have no lock, and a completion time is set exactly in the two final states. |
| Dedup.AtMostOneUnclaimed | acad/db/queries.py:299-322 | In every run, with any parameters, at most one never-claimed job exists for a paper and stage, and it is pending. |
| Dedup.StepKeepsOnePendingIff | acad/db/queries.py:299-322 | From a table with one pending job for each work, a step keeps that if and only if nothing it puts back (a deferral, a failure with attempts left, retried rows) has its work pending in another row or put back twice. |
| Dedup.OnePendingIffNoCollision | acad/db/queries.py:371-445 | Any run has one pending job for each work all along if and only if no step of it collides so. |
| Dedup.OnePendingWithoutRequeues | acad/db/queries.py:299-322 | In particular, in a run that never puts a claimed job back. |
| Dedup.RequeueBreaksOnePending | acad/db/queries.py:383-445 | A state is reached, with one pending job for each work, from which a recorded failure, or a retry where no attempt is left, leaves two pending jobs for one. |
| Stranded.NoPaperIsStranded | acad/pipeline/resolution.py:56-59 | Under the premise every paper a job was enqueued for is complete, unresolvable, or has a job that is pending, or in progress or failed with its handler's last write still to come. |
| Stranded.AttendedStep | acad/pipeline/resolution.py:187-189 | Writing the stage, then enqueueing, then completing leaves no step after which the paper has neither an end stage nor a live job. |
| Stranded.EnqueuedIsLive | acad/pipeline/ingestion.py:47-53 | After an enqueue, even one that found an existing pending job, some job carries the paper on. |
| Stranded.LiveStep | acad/pipeline/acquisition.py:64-69 | Only the last write of a job's own handler can end that job's liveness. |
| StrandedWithoutLease.NoneStrandedIffFitsLease | acad/infra/worker.py:41-62 | No paper is stranded in any run if and only if every stage's full batch fits the lease. |
| StrandedWithoutLease.PaperIsStranded | acad/pipeline/resolution.py:187-189 | Whichever stage's batch does not fit, a state is reached in which a paper with a job is at no end and has no job to carry it on. |
| Reclaim.CrashedJobIsReclaimed | acad/db/queries.py:344-349 | Under the premise, in any run: a job whose worker crashes while it runs it or has it waiting stays exactly as it was until a claim selects it; no claim does within the lease, and the first claim of its stage with room that begins later does. |
| Reclaim.LostUntilTaken | acad/infra/worker.py:17-18 | With any parameters: nothing but a claim ever changes a row in progress that nobody holds. |
| Finishing.EveryJobCanFinish | acad/pipeline/state_machine.py:19-27 | From every state with its rows in order, however many workers are doing whatever, a pending or in-progress job can be carried by workers alone, stage by stage, until its paper is complete. |
| Finishing.NoJobIsStuck | acad/infra/job_queue.py:59-110 | So it is in every state a run reaches, with any lease and batch sizes. |
| Finishing.NewWorkCanFinish | acad/pipeline/discovery.py:181 | A paper that a user has just enqueued a job for, or that snowballing has just created, can be brought to completion. |
| Finishing.EveryPaperCanEnd | acad/db/queries.py:418-445 | Under the premise every paper a job was enqueued for is at an end, or can be carried to completion by workers alone or after one retry. |
| Finishing.CanBeUnresolvable | acad/pipeline/resolution.py:56-59 | Every resolve job that is pending or in progress can come to leave its paper unresolvable. |
| Finishing.HandlerCanComplete | acad/infra/job_queue.py:132-184 | In every state a run reaches, wherever a running handler has come to, its worker alone can make the writes that are left and complete the job, unless a claim has just selected its row. |
| Endings.StagesAreEarned | acad/pipeline/state_machine.py:19-27 | In every run, with any parameters: a paper is complete only if a citation job of it was claimed, unresolvable only if a resolve job was, at any other stage only if a job of that stage was; and an acquire or a citation job exists only if the paper's resolve or ingest job was claimed before. |
| Termination.PipelineComesToRest | acad/pipeline/citation_extraction.py:144-175 | Without deferrals, reclaims, manual retries, user discoveries or new workers, and with DOI-only bibliographies, no run takes more working steps than the measure of its first state, snowballing by any number of citation workers included. |
| Termination.QuietLowers | acad/infra/job_queue.py:132-184 | Every working step of such a run lowers the measure, and waiting, polling or crashing never raises it. |
| Termination.IdleChangesNothing | acad/infra/job_queue.py:65-92 | The other steps (waiting, polling, claims that take nothing, crashes) change no job, no paper and no other worker's handler. |
| Termination.ClaimedWeight | acad/db/queries.py:325-357 | Claiming rows takes one attempt's worth of work off each of them. |
| Termination.WorkIsBounded | acad/infra/job_queue.py:59-110 | From any state a run has reached under the premise with no deferral or reclaim under way, one bound holds for all such continuations. |
| Circuits.RefusedOnce | acad/infra/circuit_breaker.py:31-43 | In the pipeline with its breakers, a breaker that refuses a job has not refused it since its last failure. |
| Circuits.DeferredBeyond | acad/infra/job_queue.py:136-141 | A deferral ends five seconds after the recovery time of the breaker that caused it, and outlasts that of every other that refused the job before and has not failed since. |
| Circuits.AskedWhileOpenIsDeferred | acad/infra/circuit_breaker.py:39-43 | An acquire handler that asks a breaker while it is open is deferred: its row is pending with its attempts kept, and claims may take it exactly from the end of recovery plus five seconds on. |
| Circuits.FailingRequestOpens | acad/infra/circuit_breaker.py:49-53 | A failing request of a resolve or acquire handler counts against its breaker and opens it if it fills the threshold. |
| Circuits.BreakersHear | acad/infra/circuit_breaker.py:31-47 | Any caller's success closes a breaker, and a read once its recovery time is over makes it half-open. |
| Circuits.NotBeforeStep | acad/db/queries.py:344-349 | No step, of claiming, failing or deferring included, lets a handler run on a job before the time its last refusal set. |
| DeferredRuns.RefusalCounts | acad/infra/job_queue.py:136-141 | Each deferral uses up one of the refusals that can still happen. |
| DeferredRuns.TotalFalls | acad/infra/job_queue.py:132-184 | Every working move, deferrals and recorded breaker failures included, lowers one total, and no move raises it. |
| DeferredRuns.DeferredRunsComeToRest | acad/infra/job_queue.py:136-141 | With jobs deferred whenever a breaker refuses them, no run takes more working moves than that total at its first state. |
| DeferredRuns.DeferredWorkIsBounded | acad/infra/job_queue.py:59-110 | From any state reached under the lease premise with no reclaim under way, whatever state the breakers are in, one bound holds for all such runs. |
| Snowball.OvershootIsBounded | acad/pipeline/citation_extraction.py:145-175 | In every run with at most n citation workers at a time, however often they are restarted, at most n times the budget of papers are snowballed. |
| Snowball.LeftToAllStep | acad/pipeline/citation_extraction.py:163-175 | No step raises what handlers may still create, and creating a paper lowers it. |
| Snowball.BudgetKeptIffOneWorker | acad/pipeline/citation_extraction.py:12-13 | The budget is kept in every run with at most n citation workers at a time if and only if n is at most one or the budget allows no paper. |
| Snowball.OvershootIsReached | acad/pipeline/citation_extraction.py:145-147 | For every n and every budget that bound is reached: n handlers read the count before any of them creates a paper. |
| JobQueue.EachJobItsOwnOutcome | acad/infra/job_queue.py:93-110 | After a batch each job's row holds its own outcome, whatever became of the others. |
| JobQueue.OthersUntouched | acad/infra/job_queue.py:93-110 | Rows outside the batch are as they were. |
| JobQueue.CompletedInCounts | acad/infra/job_queue.py:107-110 | The worker's count goes up by the number of jobs that returned and whose completion was stored. |
| JobQueue.RecordedOrLeftForTheLease | acad/infra/job_queue.py:132-184 | The row leaves progress if and only if the statements its outcome needs are accepted, and otherwise stays exactly as it was; it succeeds only if the handler returned and completion was stored; a deferral costs no attempt and ends five seconds after the hint; a failure costs one, is final if it was the last, and otherwise lasts its backoff. |
| JobQueue.ClaimDelayGrowsToItsCap | acad/infra/job_queue.py:68-79 | The sleep after failed claims doubles with each of them up to 60 seconds and stays there. |
| JobQueue.Queue.ProcessJob | acad/infra/job_queue.py:132-184 | Every way a handler can end and every way recording can be refused leaves exactly the specified row; an escaped error means nothing was stored. |
| JobQueue.Queue.ProcessBatch | acad/infra/job_queue.py:93-110 | The batch is processed in order to its end even when outcomes cannot be stored, and counts exactly the completed jobs. |
| JobQueue.Queue.RunOnce | acad/infra/job_queue.py:65-110 | A claim that raises leaves the table alone and lengthens the sleep; an empty claim polls; otherwise the claimed jobs are processed. |
| QueueRuns.TurnIsRun | acad/infra/job_queue.py:132-184 | From a handler's end to the next one's start the worker's program is a run of the state machine and ends in the same row, for every outcome and every refused statement. |
| QueueRuns.ClaimIsRun | acad/db/queries.py:325-357 | What the claim statement may select, and the table and batch it then leaves, is a run of the state machine. |
| QueueRuns.RaisedClaimIsRun | acad/infra/job_queue.py:68-79 | So is a claim that raises, before or after it has selected its rows, and it leaves everything as it was. |
| Workers.OneWorkerPerStage | acad/infra/worker.py:65-101 | A process that starts workers only when no stop is waiting, or when every stage still has one, runs at most one worker per stage in every run. |
| Workers.StartIsSafeIff | acad/infra/worker.py:65-101 | From every state such a run reaches, a start keeps the invariant, and one worker per stage in every later run of that kind, if and only if no stop is waiting or every stage's worker still runs. |
| Workers.StartWhileStopping | acad/infra/worker.py:87-101 | A run with two running workers of one stage. |
| Workers.StartIsIdempotent | acad/infra/worker.py:65-84 | Starting again starts nothing and changes nothing. |
| Workers.StartRunsEach | acad/infra/worker.py:65-84 | After a start every stage has a running worker, those that ran are kept, and only stages without one got a new one. |
| Workers.Registry.StartWorkers | acad/infra/worker.py:65-84 | The loop over the stages computes that state and returns how many it started. |
| Citations.CitationsAreConserved | acad/pipeline/citation_extraction.py:91-106 | When edge creation succeeds, in every run with any number of citation handlers at once, a processed citation is an edge or a pending row and every pending row's citing paper has a document; with one handler at a time, after the cited paper's handler has flushed it is an edge with no pending row of that paper left. |
| Citations.KeptIffDirectEdgesSucceed | acad/pipeline/citation_extraction.py:194-205 | No processed citation is ever dropped if and only if edges created at once cannot fail; failing edges of a flush, and any number of handlers at once, drop none. |
| Citations.NoneWaitsIffAloneAndEdgesSucceed | acad/pipeline/citation_extraction.py:91-106 | In all runs with at most n citation handlers at a time, no citation waits for a paper whose handler has flushed if and only if there are none at all, or one at a time and the edges of a flush cannot fail. |
| Citations.LeftByAnother | acad/pipeline/citation_extraction.py:159-205 | A run of two handlers in which no edge fails and a citation waits for a flushed paper: the paper gets its document and is flushed between the other handler's lookup and its insert. |
| Citations.LeftByFailure | acad/pipeline/citation_extraction.py:98-105 | A run of one handler that leaves a citation waiting because its edge failed in the flush. |
| Citations.DroppedIffEveryEdgeFailed | acad/pipeline/citation_extraction.py:194-205 | In any run a citation stored once is an edge or a pending row for good; where no two papers share a document, a processed citation is neither exactly when its edge failed every time a handler came to store it. |
| Citations.NothingLeftPending | acad/pipeline/citation_extraction.py:95-97 | In every run, whichever edges fail and however many handlers run, the branch that leaves a row pending for want of a citing document is never taken. |
| Citations.FlushedCleanStep | acad/db/queries.py:122-169 | With one handler at a time, a target found without a document has not been flushed when its citation is stored, even if it is linked in between, so its own handler will still see the row. |
| Citations.SnowballIsBounded | acad/pipeline/citation_extraction.py:144-175 | With any number of handlers every crawl depth is 1 or 2, is the length of a citation chain from a seed and never changes; with one at a time the snowballed papers never exceed the budget, or the initial count if that was larger. |
| Citations.SnowballFromEmpty | acad/pipeline/citation_extraction.py:144-175 | The same from an empty database, where the bound is the budget. |
| Citations.CountIsNumber | acad/db/queries.py:113-119 | What is compared with the budget is the number of papers that have a crawl depth. |
| Citations.RunAdvances | acad/pipeline/citation_extraction.py:144-205 | From any state of a run on, documents, edges, DOIs, crawl depths, processed citations and the count of snowballed papers are never undone. |
| CitationHandler.CitationStore.FlushPendingTo | acad/pipeline/citation_extraction.py:91-106 | Goes through every fetched row; if it runs to its end and no edge fails meanwhile, every citation that waited for the paper when it began is an edge, whatever other workers did. |
| CitationHandler.CitationStore.FlushRow | acad/pipeline/citation_extraction.py:94-105 | The edge is made unless it fails; a pending row is deleted only after its edge exists, and stays if the edge fails. |
| CitationHandler.CitationStore.CountSnowballed | acad/db/queries.py:113-119 | Counts exactly the papers with a crawl depth. |
| CitationHandler.CitationStore.StoreAt | acad/pipeline/citation_extraction.py:194-205 | Leaves the citation as an edge or a pending row, unless an edge created at once failed. |
| CitationHandler.CitationStore.Handle | acad/pipeline/citation_extraction.py:109-215 | Whatever ingestion, users and other citation workers do in between, the execution is a run of the state machine and runs to its end if and only if no pause cuts it short. Then every entry whose DOI is known when it is reached has been processed; one whose DOI is not has been discovered, one level deeper, and processed if the paper is at depth 0 or 1, the count read plus the handler's own discoveries is below the budget and lookups work, and is discovered only then. A processed citation is an edge or a pending row unless edges created at once may fail, and none waits for the paper unless edges of a flush may fail or handlers have run side by side. |
| CitationHandler.CitationStore.ResolveEntry | acad/pipeline/citation_extraction.py:157-175 | An entry leads to the paper that has its DOI, or to a new one at the next depth that now has it; nothing happens if neither is possible. |
| RateLimiter.GrantsStayWithinRate | acad/infra/rate_limiter.py:23-36 | In every run, with oversleeping and with callers cancelled in their sleep, grants i..j number at most the burst plus rate times the time they span. |
| RateLimiter.TokensAreTheAllowance | acad/infra/rate_limiter.py:25-28 | With exact sleeps, or any sleeps when the burst is one token, the refilled count is the minimum of the burst and what each window from an earlier grant still allows. |
| RateLimiter.WaitsOnlyWhenItMust | acad/infra/rate_limiter.py:30-36 | In the same runs a caller waits if and only if granting at once would break the bound for some window. |
| RateLimiter.NeverNeedlesslySlowIffUnitBurst | acad/infra/rate_limiter.py:23-36 | For every rate and burst: no legal run, whatever its callers oversleep, leaves a caller waiting although no window would break, if and only if the burst is a single token. |
| RateLimiter.OversleepIsWasteful | acad/infra/rate_limiter.py:30-34 | For every rate and every burst above one, a run with one oversleep after which a caller so waits. |
| RateLimiter.TokenBucket.Acquire | acad/infra/rate_limiter.py:23-36 | Keeps the window bound over all grants so far, and its state is the specification's next state. |
| CircuitBreaker.StateRefinesHistory | acad/infra/circuit_breaker.py:31-53 | For threshold at least one, reading the lazily updated state gives the pure function of the failures and successes so far. |
| CircuitBreaker.RefinesIffThresholdPositive | acad/infra/circuit_breaker.py:45-53 | That refinement holds for all histories if and only if the threshold is at least one. |
| CircuitBreaker.ReadsDoNotMatter | acad/infra/circuit_breaker.py:31-37 | Histories that differ only in reads give the same state. |
| CircuitBreaker.Breaker.State | acad/infra/circuit_breaker.py:31-37 | Returns the pure function of the history, and stores it. |
| CircuitBreaker.Breaker.Check | acad/infra/circuit_breaker.py:39-43 | Refuses exactly when the pure function says open at its first clock reading; the hint is what the second leaves of the recovery time after the last failure. |
| HttpClient.Request | acad/infra/http_client.py:97-156 | Whatever other callers do to the shared breaker in between: the request goes on while it is rate limited, five times at most, and is refused exactly when the circuit is open at an attempt. The breaker hears of it one failure, at its report time, if the last reply is a server error or never came, one success if it was accepted, and otherwise nothing. |
| HttpClient.Download | acad/infra/http_client.py:190-220 | The same for a download, which is not repeated when rate limited and adds a failure after the success when the file cannot be written. |
| HttpClient.FailuresOpenTheCircuit | acad/infra/http_client.py:127-134 | Requests in a row of which the breaker hears a failure open the circuit with the one that fills the threshold and not before, until the recovery time after the last. |
| HttpClient.OtherRepliesChangeNothing | acad/infra/http_client.py:127-137 | Requests of which it hears nothing, such as those that end in another client error or in 429, never change the circuit, however many. |
| HttpClient.AcceptedCloses | acad/infra/http_client.py:124-126 | One that is accepted leaves the circuit closed. |
| HttpClient.FailedWriteKeepsClosed | acad/infra/http_client.py:204-217 | Such a write failure leaves the host's circuit closed exactly when the threshold is at least two. |
| Deferral.NotClaimedBeforeRecovery | acad/infra/job_queue.py:136-141 | A job deferred by an open circuit is claimed no earlier than last failure + recovery timeout + 5 s, although check reads the clock twice. |
| Deferral.ClaimedFromRecoveryOn | acad/infra/job_queue.py:136-141 | From then on, plus the time it took to store the deferral, claims may take it: it lasts no longer. |
| Deferral.DeferralOutlastsOpenCircuit | acad/infra/circuit_breaker.py:39-43 | If the breaker saw no further failure, its check passes when the deferred job is claimed again. |
| Migrate.Migrations | acad/db/migrate.py:71-96 | Accepts the files found, in any order, if and only if some arrangement of them is numbered 1..current, and returns that arrangement. |
| Migrate.SortedIsNumbered | acad/db/migrate.py:88-91 | Sorting by revision yields the numbered arrangement whenever there is one. |
| Migrate.PrefixIffNoProblems | acad/db/migrate.py:124-146 | The row-by-row findings add up to: no problem if and only if the ledger is exactly the first files. |
| Migrate.Inspect | acad/db/migrate.py:110-170 | The classification is exact in both directions for ok, pending and ahead, and no problems if and only if the ledger is a prefix of the package. |
| Migrate.RequireCurrent | acad/db/migrate.py:232-244 | Accepts exactly a ledger equal to the packaged files. |
| Migrate.Database.Upgrade | acad/db/migrate.py:195-229 | Applies exactly the missing files in order if the ledger is a prefix; refuses every other ledger with rows and schema unchanged. |
| MigrationRuns.ConcurrentUpgradesAreSafe | acad/db/migrate.py:203-228 | For any number of upgraders, any interleaving and crashes anywhere, the ledger stays a matching prefix, the schema is those files in order, each revision commits once and in order, a finished upgrade is at the last one, and the lock is held exactly by the upgrader between locking and unlocking. |
| MigrationRuns.EveryUpgraderFinishes | acad/db/migrate.py:203-228 | From every state such a run reaches, every upgrader that waits or has yet to connect can still bring the database to the last revision, whether the present holder of the lock crashes or runs to its end, and nobody else need move. |
| MigrationRuns.TurnProgress | acad/db/migrate.py:203-226 | An upgrader that has the lock, or waits for a free one, is never blocked, by others or by the ledger's primary key; each statement brings it nearer its end, and its end frees the lock. |
| MigrationRuns.OtherLedgersAreRefused | acad/db/migrate.py:205-207 | From any other ledger no upgrader, in any interleaving, changes rows or schema. |
| MigrationRuns.EveryUpgraderIsRefused | acad/db/migrate.py:205-226 | And every upgrader that waits or has yet to connect can still be refused, whether the holder of the lock crashes or is refused itself. |
| Discovery.RediscoveryIsIdempotent | acad/pipeline/discovery.py:107-181 | Processing again any mix of results already processed inserts no paper, no identifier and no job. |
| Discovery.AdmitsByIdentifiers | acad/pipeline/discovery.py:107-181 | One result without an identifier of its own changes nothing; one whose identifier or DOI is stored adds no paper and no job, and its identifier then belongs to the paper that has it or has the DOI; any other adds one paper, which owns each of its identifiers nobody had, and one resolve job that claims may take at once. |
| Discovery.OneNewPerDoi | acad/pipeline/discovery.py:121-128 | Of two results of a list with one DOI, whatever their providers and whatever lies between them, at most one is new. |
| Discovery.SharedDoiAddsOnePaper | acad/pipeline/discovery.py:238-244 | Results that all have one DOI add at most one paper between them, none if it was stored, and exactly one if the first of them was unknown. |
| Discovery.DiscoveryStore.Ingest | acad/pipeline/discovery.py:107-290 | The statements of each provider's ingest function do exactly that to the tables. |
| Discovery.NewPapersAreCounted | acad/pipeline/discovery.py:226-290 | The number reported as new is the number of papers and of jobs added; identifiers never move to another paper; every paper owns a primary identifier. |
| Discovery.IngestKeeps | acad/db/queries.py:175-185 | One result keeps identifiers a partial function onto papers, and a new paper owns its primary identifier and has its first job. |
| Discovery.DiscoveryStore.IngestPage | acad/pipeline/discovery.py:93-97 | A page is ingested result by result under consecutive ranks; at most one result is new if all share a DOI. |
| Discovery.DiscoveryStore.DiscoverByDoi | acad/pipeline/discovery.py:412-436 | The returned paper owns the DOI; a known DOI or a failed lookup changes nothing; a lookup that brings in the DOI under an unknown identifier returns the paper it adds; nothing is returned when what was found has another DOI. |
| Paging.DiscoverByOffset | acad/pipeline/discovery.py:187-223 | Terminates, with short pages allowed, having processed exactly the first min(limit, total) results, once each, in order, each ranked by its position. |
| Paging.DiscoverOpenAlex | acad/pipeline/discovery.py:71-104 | With full pages the loop covers the list so if and only if the limit is at most 50 or a multiple of 50, or the list ends within the limit's whole pages. |
| Paging.NextWindow | acad/pipeline/discovery.py:71-82 | The next page begins where the last one ended unless it is a short last page, and then it begins too early. |

`Paging.DiscoverByOffset` is also the Crossref loop (acad/pipeline/discovery.py:296-339),
with pages of 50; the two differ only in the page size.

## Left out

- Termination.PipelineComesToRest: excludes deferrals, which `DeferredRuns` adds, and lease reclaims, manual retries and user discoveries. Bibliographies carry DOIs only, and discovering a DOI and setting its paper's depth is one step: a title-only entry creates papers that never count against the budget.
- DeferredRuns.DeferredRunsComeToRest: the same premises, and the shipped acquisition modules, in which a run that records a breaker failure ends in another exception. A module an operator adds may fail, try again and then meet the open circuit within one run; nothing is said of that.
- Snowball.OvershootIsBounded: DOI-only bibliographies, and discovering a DOI and setting its paper's depth as one step.
- Stranded.NoPaperIsStranded: follows papers some job was enqueued for; a crash between inserting a paper and enqueueing its first job is outside discovery's own guarantees.
- Citations.SnowballIsBounded: covers citations with a DOI, and discovering a DOI and setting its paper's depth as one step; a title-only citation starts a search that sets no depth. That a depth never changes follows from that one step: the code's update of the column would overwrite.
- CitationHandler.CitationStore.ResolveEntry: looking a DOI up and discovering it is one step; between the two other workers can store it in the code, whose discovery then looks again.
- Finishing.EveryJobCanFinish: one continuation, in which the present workers stop and new ones take over. That every continuation gets there would need fairness and handlers that succeed.
- Citations.CitationsAreConserved: speaks of handlers that got through their flush; an exception inside the handler also marks the paper complete. Document ids, once set, are not changed.
- Discovery.RediscoveryIsIdempotent: results are processed one after the other; two searches at once can each insert a paper for one identifier.
- Deferral.DeferralOutlastsOpenCircuit: the database clock and the monotonic clock advance together.
- HTTP transport, JSON shapes, retry sleeps, host checks and the audit log of API calls: a reply is one of six kinds.
- The choice among resolution strategies and acquisition modules, PDF checks and file handling: only the order of their stage writes and enqueues matters to the queue.
- Manual import and discovery by author: the first writes stages without the order the other handlers keep, the second repeats the OpenAlex loop.
- Bibliography attributes, confidence and DOI normalisation: an entry is its DOI.
- The rate limiter's and breaker's per-source registries, worker and pipeline status reports, logging, redaction, environment parsing.
- Databases of the 0.1.x releases, which have no ledger, and the contents of the migration files.
- The stop flag of a worker's loop: stopping cancels the task, which is the crash step.
- Floating-point rounding: times and tokens are reals.
