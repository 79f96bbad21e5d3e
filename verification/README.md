# Verification of the job, session and artifact engine

This project models the backend engine that takes a recorded session from
capture to publication and, on request, retracts it again: the session and
artifact state machine behind the HTTP endpoints, the orchestrator that creates
and chains jobs, the polling worker with its heartbeat lease, the job handlers,
and the deletion saga. `dafny verify dfyconfig.toml` checks all of it.

## How the model is laid out

Rows are values (`Domain.dfy`). A database session is a class
(`Database.dfy`): the tables as the open transaction sees them, the last
committed tables, and the audio directory. Every operation of the source is a
method that updates that class step by step, proved equal to a function on table
values (`Orchestrator`, `SessionApi`, `ArtifactService`, `Agents`, `Worker`).
A function's result is a `Reply`: the tables flushed so far, and whether the
operation returned or raised. `Settle` keeps them or throws them away, as the
request's transaction does.

What each operation answers and writes is stated once more on the columns, by
the literal statuses, names, times and defaults, in `RequestColumns`,
`ReviewColumns`, `HandlerColumns` and `JobColumns`. They do not use the
transition table, the claim order, the lookups or the defaults those functions
are written with.

Two machines are built on those functions.

* `Lease` is a timed machine over any number of workers and jobs. It has open claims
  with row locks, heartbeats that go through, fail or come late, crashes, and
  a clock that may only pass as far as the timing assumption allows.
* `System` is the whole engine: requests, claims, heartbeats, crashes,
  finishing executions and deletion attempts, each an atomic commit. It assumes
  no lease, so the same job may run in many workers at once. `SystemInvariant`
  and `SystemRuns` prove its invariant inductive; `SystemTheorems`, `JobRows`,
  `Saga`, `PollCycle`, `Insertions` and `Finality` draw the consequences for every
  reachable state and every run. `Walks`, `Witness` and `Leak` build runs from
  empty tables to the states the theorems speak of.

History variables, which the program does not store, are `Session.trace` (every
status ever written), `State.inserted` and `State.tally` in `Lease`, and
`World.uploads` and `World.drawn` in `System`.

## Main results

* **Lease.** No job ever has two live executors, in all runs, if and only if
  `(misses + 1) * (30 s + jitter) <= 120 s` and shutdown is not set while a job
  runs. The same condition is exact for extraction jobs inserting their artifact
  exactly once, and for claims and pending rows accounting for all work. At
  any timing no release is lost and claims never exceed the work made.
* **Engine invariant.** Every reachable session is either early and owns no row,
  or has its audio and exactly one job per pipeline key; published sessions
  went through every review milestone; consent was granted; stages have their
  causes; cancelled is absorbing although one handler bypasses the table.
* **Finality.** A retracted session stays retracted over every run if and only if
  a condition on its current rows holds; both sides are reached from empty tables.
* **Exact guards.** In every reachable state: when entering processing, queueing
  a publication and cancelling succeed, each as an if-and-only-if.
* **Publication.** What a publish job's cycle commits, decided by the session's
  status beforehand and the deletion half; a run from empty tables that leaks.
* **Saga.** After an accepted retraction, in any run with crashes between file
  removal and commit and re-executions, a session whose row job is completed
  has artifacts exactly if an extraction committed after the last removal; for
  the deletion jobs alone the result is independent of the schedule.
* **Orchestrator.** The event log replays to the job table; chained creation is
  eager creation cut off one stage past the last completion; a complete
  pipeline never gains a job.
* **Worker.** Draining both queues terminates and runs every job once, in claim
  order; a session's stages may be claimed in any order, and the order decides
  the outcome.

## Where the code departs from what is said about it

* The transition table lets `processing_failed` go back to `processing`
  (`backend/app/sessions/service.py:48`), but the unique keys of the three pipeline
  jobs refuse it every time. Entering processing succeeds exactly from
  `capturing` with audio (`SystemTheorems.ProcessingAccepted`).
* The repository's setup guide (its own README.md, line 191) says the worker
  handles the stages in order. The three rows share priority and creation time, so
  any order is a legal claim; the extraction succeeds exactly when the
  transcription ran before it (`PipelineOrder.ExtractionNeedsTranscriptFirst`,
  `PipelineOrder.AcceptedJobsRunInAnyOrder`).
* The service is described as the only writer of session status
  (`backend/app/artifacts/service.py:3-4`), and terminal states as final. The
  extraction handler writes `needs_review` directly
  (`backend/app/agents/distiller.py:139-140`), so `retracted` is not absorbing:
  `Witness.RetractedIsLeft` is a run that leaves it. It is final exactly when no
  artifact of the session is left to reject and every extraction of it is
  completed and no longer executed, or when its completed summary names an
  unknown artifact type and is no longer executed (`Finality.RetractedFinal`).
  `cancelled` is absorbing (`SystemTheorems.CancelledForGood`).
* Approving the last artifact of a session that is neither under review nor
  approved raises and rolls the approval back (`ReviewOrder.ApprovalRefused`).
* A publish handler raises exactly when its artifact is there and the session
  is neither publishing nor published (`PollCycle.PublishRaises`). It has then
  flushed its artifact as published already; the deletion half of the same poll
  cycle shares the database session, and its commit makes that write durable
  (`PollCycle.PublishOutcome`, `Leak.LeakIsReachable`).
* The column comment says retries stay `failed` and are scheduled by
  `next_run_at` (`backend/app/models/job.py:3-4`), but a due time on a failed row has
  no effect: the row leaves `failed` only by a retry call, or by an execution of
  it that still went on and returns (`JobRows.FailedUntilRetried`).
* The retry budget limits no retry: a retried job is claimable at once however
  often it failed (`RetryBudget.RetryIgnoresBudget`). Beyond the budget the
  service clears the due time and the worker leaves it as it was
  (`RetryBudget.DueAfterFailure`).
* The saga's jobs never move the session from `retracting` to `retracted`; it
  enters `retracted` exactly by its owner's status request from `retracting`
  (`JobRows.RetractedByRequest`).

## Model

| member | source | states |
|---|---|---|
| `LeaseTheorems.LeaseSafety` | backend/app/orchestrator/worker.py:53-145 | over all runs of any number of workers and jobs, no job has two live executors if and only if the missed heartbeats' cycles fit in the timeout and shutdown is not set mid-job |
| `Lease.StepKeeps` | backend/app/orchestrator/worker.py:53-160 | under the timing condition every step (claim, commit, abort, heartbeat, missed or stray heartbeat, finish, failure, crash, creation, retry, time) keeps the protocol's invariant |
| `Lease.AliveNotTimedOut` | backend/app/orchestrator/worker.py:55-61 | the arithmetic of the lease: a live executor's job is never timed out |
| `Lease.OpenKeepsAlive` | backend/app/orchestrator/worker.py:67-79 | neither a released row nor a claimed one belongs to a live executor |
| `Lease.CommitKeepsAlive` | backend/app/orchestrator/worker.py:84-87 | committing a claim makes its worker the one executor of the claimed row |
| `Lease.HeartbeatKeeps` | backend/app/orchestrator/worker.py:91-110 | a heartbeat that goes through renews the lease and starts counting misses anew |
| `Lease.MissKeeps` | backend/app/orchestrator/worker.py:96-101 | a swallowed heartbeat spends one cycle of the slack and keeps the invariant up to the allowed number |
| `Lease.StrayKeeps` | backend/app/orchestrator/worker.py:103-110 | a late heartbeat of an ended execution, which hits whoever runs the job now, does no harm |
| `Lease.EndKeeps` | backend/app/orchestrator/worker.py:116-142 | an execution's end frees the job, counts an artifact exactly on an extraction's completion and keeps the accounts |
| `Lease.RunKeeps` | backend/app/orchestrator/worker.py:163-187 | the invariant holds at the end of every legal run |
| `LeaseTheorems.ExactlyOnceEffect` | backend/app/agents/distiller.py:95-145 | in all runs an extraction job has inserted one artifact if completed and none otherwise, if and only if the timing condition holds |
| `Insertions.ExecutionIsEndStep` | backend/app/orchestrator/worker.py:116-142 | an execution commits the job row of the lease machine's end step and as many artifact rows as that step counts |
| `Insertions.InsertedOnce` | backend/app/agents/distiller.py:122-144 | over any run of the engine in which no claim takes an executed job, an extraction job has committed one insertion if completed and none otherwise |
| `Insertions.AtMostOneArtifact` | backend/app/agents/distiller.py:122-132 | over such runs at most one artifact row carries a job's id, and only a completed extraction's |
| `LeaseTheorems.BrokenRun` | backend/app/orchestrator/worker.py:53-110 | whenever the timing condition fails there is a legal run after which two workers run the same job |
| `LeaseTheorems.MissAll` | backend/app/orchestrator/worker.py:93-101 | for every allowed number of misses, the run that reaches it with the lease's time used up |
| `LeaseTheorems.NoLostRelease` | backend/app/orchestrator/worker.py:148-160 | in every state reachable at any timing, if the release frees a job the claim of the same transaction finds a row, so the release is committed with it |
| `LeaseTheorems.WorkIsBounded` | backend/app/orchestrator/worker.py:53-87 | over every run at any timing, claims made and rows still pending are at most the rows initially pending, created, released and retried |
| `LeaseTheorems.WorkIsConserved` | backend/app/orchestrator/worker.py:53-145 | claims = initially pending + created + released + retried - still pending over all runs, if and only if the timing condition holds |
| `LeaseTheorems.LoseWork` | backend/app/agents/distiller.py:142-144 | with two executors of one job, a late finish can complete a retried row that nobody claimed |
| `Worker.ReleaseTimedOutJobs` | backend/app/orchestrator/worker.py:53-64 | exactly the running rows whose last sign of life is more than 120 s old become pending without a start time, all other rows are unchanged, and their number is returned |
| `Worker.LeaseTerm` | backend/app/orchestrator/worker.py:35-61 | a release leaves a running row alone exactly up to 120 s after its start time, to the microsecond, and every other row always |
| `Worker.ClaimJob` | backend/app/orchestrator/worker.py:67-79 | returns a pending, due, unlocked row than which no other such row has a higher priority, or the same and an earlier creation; none exactly when no such row exists |
| `Worker.ClaimColumns` | backend/app/orchestrator/worker.py:70-77 | the claim's answers in terms of status, due time, priority and creation time |
| `Worker.BestExists` | backend/app/orchestrator/worker.py:75-76 | the claim order has a first element in every non-empty set of candidates |
| `Worker.EveryClaimIsPossible` | backend/app/orchestrator/worker.py:70-77 | a row is claimable exactly if some set of rows locked by others makes it the claim's answer |
| `Worker.ExecuteJob` | backend/app/orchestrator/worker.py:82-145 | the committed tables and the tables the worker's own session still sees, after marking, handling and recording a failure through a second session |
| `JobColumns.WorkerColumns` | backend/app/orchestrator/worker.py:84-142 | the columns written by marking a row, by a heartbeat and by a recorded failure, within and beyond the budget |
| `JobColumns.RaisedColumns` | backend/app/orchestrator/worker.py:130-142 | when a handler raises, the failure is committed on the job row alone, and what the handler flushed stays pending |
| `JobColumns.UnknownTypeColumns` | backend/app/orchestrator/worker.py:117-127 | a job of unknown type fails whatever its status, never completes |
| `Worker.ProcessOne` | backend/app/orchestrator/worker.py:148-160 | release, claim and execute; without a claim nothing is committed and the release stays pending in the session |
| `Worker.ProcessDeletion` | backend/app/orchestrator/worker.py:192-230 | takes an oldest pending due deletion job and commits it with everything pending in the session, also when the handler fails |
| `Worker.DeletionClaimColumns` | backend/app/orchestrator/worker.py:196-206 | which deletion jobs may be taken, in terms of status, due time and creation time |
| `JobColumns.DeletionColumns` | backend/app/agents/deletion.py:30-47 | a committed deletion removes its session's artifacts if of that kind, completes its row and writes nothing else |
| `JobColumns.RemovalColumns` | backend/app/agents/deletion.py:40-45 | only an audio deletion with a file name removes a file, and only that one |
| `JobColumns.RefusalColumns` | backend/app/orchestrator/worker.py:218-222 | a failed deletion writes its status and message and nothing else |
| `Drain.DrainQueues` | backend/app/orchestrator/worker.py:148-230 | repeated poll cycles terminate; the jobs run are exactly the pending ones, each once, by descending priority and at equal priority by ascending creation time, all ending completed or failed; no row is added and no deletion job stays pending |
| `Drain.CycleAdvances` | backend/app/orchestrator/worker.py:178-187 | a cycle runs one more job in order or leaves one deletion job less pending, or nothing is left |
| `Drain.ExecutionSettles` | backend/app/orchestrator/worker.py:116-142 | an execution completes or fails its own job and writes no other job row |
| `Drain.ProgressStep` | backend/app/orchestrator/worker.py:67-79 | each further claim keeps the order of executions sorted and free of repetition |
| `RetryBudget.RetryCountIsCapped` | backend/app/orchestrator/service.py:99-104 | through any mix of failures, requeues and runs the retry count is min(failures, max_retries) on both failure paths |
| `RetryBudget.DueAfterFailure` | backend/app/orchestrator/worker.py:135-142 | the n-th failure is due at once if n is within the budget; beyond it the service clears the due time, the worker keeps the old one |
| `Orchestrator.CreateJobsForSession` | backend/app/orchestrator/service.py:39-71 | inserts the three pipeline jobs and their creation events, or raises and inserts nothing if any of the keys is taken |
| `Orchestrator.Transition` | backend/app/orchestrator/service.py:74-121 | the new job row for each target status, the logged event, and on completion the next stage's job |
| `JobColumns.TransitionColumns` | backend/app/orchestrator/service.py:85-104 | the columns of each target status: time stamps, output and error only where given, the retry schedule |
| `JobColumns.TransitionRows` | backend/app/orchestrator/service.py:106-119 | a transition writes one row and one event, and exactly on completing a transcription or summary with the next key free also the next stage's pending job and its event |
| `JobHistory.EnsureIsIdempotent` | backend/app/orchestrator/service.py:129-156 | afterwards exactly one row has the stage's key, and ensuring it again changes nothing |
| `RetryBudget.RetryIgnoresBudget` | backend/app/orchestrator/service.py:124-126 | whatever a job has been through, a retry makes it claimable at once, keeps its count of failures and writes no other row |
| `Orchestrator.ChainIsPipeline` | backend/app/orchestrator/service.py:25-30 | following the links from transcription, which a rank proves finite, gives the eager pipeline |
| `JobHistory.LogReplaysToStatus` | backend/app/orchestrator/service.py:62-126 | after any sequence of service calls each job's events form a chain and replaying them gives the job's status |
| `JobHistory.MoveKeepsLog` | backend/app/orchestrator/service.py:85-119 | one transition keeps the log faithful for all jobs, the chained one included |
| `JobHistory.CreateKeepsLog` | backend/app/orchestrator/service.py:62-71 | eager creation keeps the log faithful |
| `JobHistory.ChainFollowsCompletions` | backend/app/orchestrator/service.py:115-156 | over any calls, a pipeline grown from its first job has a later stage exactly if the stage before has been completed |
| `JobHistory.EagerEqualsChained` | backend/app/orchestrator/service.py:39-71 | chained creation reaches the eager key set exactly when both links have been completed |
| `JobHistory.EagerIsComplete` | backend/app/orchestrator/service.py:49-60 | eager creation leaves a complete pipeline exactly if it succeeds or the pipeline was complete before |
| `JobHistory.CompletePipelineIsStable` | backend/app/orchestrator/service.py:141-156 | no sequence of calls adds or duplicates a job of a session whose pipeline is complete |
| `JobHistory.PerformStage` | backend/app/orchestrator/service.py:116-119 | one call makes a stage's successor exactly by completing a job of that stage |
| `Keys.RenderInjective` | backend/app/orchestrator/service.py:50-134 | the key strings of two jobs are equal exactly when their keys are: the three formats are injective and disjoint |
| `Keys.UniqueColumn` | backend/app/models/job.py:22-24 | the unique column of strings refuses an insertion exactly when the key is taken |
| `JobColumns.KeyStrings` | backend/app/orchestrator/service.py:50-134 | the key strings of the pipeline, retry and publish jobs |
| `Database.Database.Commit` | backend/app/db/session.py:22-23 | the committed tables become what the session sees |
| `Database.Database.Rollback` | backend/app/db/session.py:24-26 | the session sees the committed tables again; removed files stay removed |
| `Database.Database.CloseRequest` | backend/app/db/session.py:18-26 | a request that raises leaves the committed tables unchanged, any other commits what it flushed |
| `StateMachine.GuardedMoves` | backend/app/sessions/service.py:43-88 | every allowed transition skips no review milestone, leaves the early group only from capturing to processing, never leaves a terminal state, and enters capturing only with consent |
| `StateMachine.TraceStep` | backend/app/sessions/service.py:43-58 | a status write that advances by at most one milestone keeps the milestones a subsequence of the history |
| `StateMachine.SubsequenceHasEmbedding` | backend/app/sessions/service.py:43-58 | a subsequence comes with the increasing positions at which its elements occur |
| `SessionApi.PostSession` | backend/app/sessions/router.py:40-77 | an idle session without consent, or 400 without a device |
| `RequestColumns.CreationColumns` | backend/app/sessions/router.py:50-75 | the new session's columns |
| `SessionApi.PatchConsent` | backend/app/sessions/router.py:120-179 | writes consent and its audit entry together; refused once published, retracting, retracted or cancelled |
| `RequestColumns.ConsentColumns` | backend/app/sessions/router.py:136-177 | refusals in order; otherwise consent is what was asked for and one audit entry says so |
| `RequestColumns.CaptureObeysConsent` | backend/app/sessions/router.py:200-209 | right after an accepted consent request an idle or paused session starts capturing exactly if consent was granted, else 403 |
| `SessionApi.PatchStatus` | backend/app/sessions/router.py:182-224 | commits the transition and, entering processing, the three jobs; every refusal (404, 400, 403, 409, missing audio, taken key) leaves all tables as they were |
| `RequestColumns.StatusColumns` | backend/app/sessions/service.py:43-88 | for every target but processing, the statuses from which the owner's request is accepted, the row it leaves, and the answer otherwise |
| `RequestColumns.ProcessingColumns` | backend/app/sessions/router.py:200-221 | entering processing: the order of refusals, and the three job rows with their events |
| `RequestColumns.UnknownStatus` | backend/app/sessions/router.py:192-198 | a string that names no status is a bad request, for the owner |
| `SessionApi.WriteStatus` | backend/app/sessions/router.py:190-221 | what the status endpoint has flushed when it returns or raises |
| `SessionApi.PostAudio` | backend/app/sessions/router.py:227-248 | the file and the session's key to it, for the owner only |
| `RequestColumns.UploadColumns` | backend/app/sessions/router.py:235-246 | only the owner's audio key changes |
| `SessionApi.PostCancel` | backend/app/sessions/router.py:251-268 | commits the cancellation or leaves all tables as they were |
| `RequestColumns.CancelColumns` | backend/app/sessions/router.py:258-266 | accepted from idle, capturing and paused; 404 and 409 otherwise |
| `SessionApi.StartRetraction` | backend/app/sessions/service.py:91-134 | writes the tombstone and exactly the three deletion jobs, the second carrying the audio key of that moment |
| `SessionApi.PostRetract` | backend/app/sessions/router.py:271-298 | retraction and audit entry in one commit, for the owner of a published session |
| `RequestColumns.RetractColumns` | backend/app/sessions/service.py:117-131 | refusals in order; otherwise the tombstone's columns, the three deletion rows and the audit entry |
| `ArtifactService.MoveSession` | backend/app/artifacts/service.py:163-194 | writes an allowed status and its event, or raises and writes nothing |
| `ArtifactService.ApproveArtifact` | backend/app/artifacts/service.py:24-69 | marks the artifact and, if none is left unapproved, moves the session through reviewing to approved |
| `ReviewColumns.ApprovalColumns` | backend/app/artifacts/service.py:34-48 | an approval while another artifact is unapproved writes the verdict and one event naming the reviewer |
| `ReviewColumns.LastApprovalColumns` | backend/app/artifacts/service.py:50-66 | the last approval's status writes and events by the session's status, or the raise |
| `ArtifactService.RejectArtifact` | backend/app/artifacts/service.py:72-110 | marks the artifact and queues one extraction job with a retry key |
| `ReviewColumns.RejectionColumns` | backend/app/artifacts/service.py:83-107 | a rejection writes rejected in both columns and the comment, one event naming the reviewer and one pending extraction carrying the reason; refused exactly if the key is held |
| `ArtifactService.QueuePublish` | backend/app/artifacts/service.py:113-140 | queues the publish job and moves the session to publishing, or raises |
| `ReviewColumns.PublishRequestColumns` | backend/app/artifacts/service.py:122-137 | a publish request's refusals in order; otherwise the job row, the session's move and its event |
| `ArtifactService.PublishArtifactRow` | backend/app/artifacts/service.py:143-158 | marks the artifact published before the session move is checked, so a refusal leaves that write flushed |
| `ArtifactService.PatchReview` | backend/app/artifacts/router.py:87-108 | one review request: committed as a whole or not at all |
| `ArtifactService.PostPublish` | backend/app/artifacts/router.py:111-132 | one publish request: committed as a whole or not at all |
| `ReviewOrder.LastApprovalApproves` | backend/app/artifacts/service.py:24-69 | approving all unapproved artifacts once, in any order, changes no session before the last approval and then approves exactly this one |
| `ReviewOrder.PartialApproval` | backend/app/artifacts/service.py:50-58 | before the last approval exactly the artifacts approved so far are marked and no session row has changed |
| `ReviewOrder.ApprovalOrderIrrelevant` | backend/app/artifacts/service.py:24-69 | any two orders of approval leave the same artifacts and sessions |
| `ReviewOrder.ApprovalRefused` | backend/app/artifacts/service.py:58-66 | an approval raises, changing nothing, exactly when it is the last one and the session is neither under review nor approved |
| `ReviewOrder.UnapprovedHoldsBack` | backend/app/artifacts/service.py:50-58 | while one artifact stays unapproved, no sequence of other approvals touches its session |
| `ReviewOrder.RejectionHoldsBack` | backend/app/artifacts/service.py:72-110 | a rejection succeeds exactly if its key is free, queues an extraction that is due at once, and holds the session back from approval |
| `Agents.RunTranscribe` | backend/app/agents/capture.py:16-52 | completes the job with its transcript in one commit, or raises with nothing flushed |
| `HandlerColumns.TranscribeColumns` | backend/app/agents/capture.py:32-50 | what a transcription needs, its refusals in order, and the transcript it stores |
| `Agents.RunSummarize` | backend/app/agents/distiller.py:79-92 | needs the completed transcription with a payload; completes the job with the model's document |
| `HandlerColumns.SummarizeColumns` | backend/app/agents/distiller.py:85-91 | needs the one completed transcription with a payload, and stores the model's document |
| `Agents.RunExtract` | backend/app/agents/distiller.py:95-175 | artifact, direct status write and completion in one commit, with the defaults for a missing summary |
| `HandlerColumns.ExtractFollowsSummary` | backend/app/agents/distiller.py:103-144 | an extraction makes an artifact of the kind and title the completed summary names, each with its default where missing; it raises for a kind that is none of the four |
| `HandlerColumns.ExtractDefaults` | backend/app/agents/distiller.py:163-175 | without a completed summary with fields it makes meeting_minutes titled Untitled |
| `HandlerColumns.ExtractRefuses` | backend/app/agents/distiller.py:148-160 | it raises without the one completed transcription with a payload, or with two completed summaries |
| `Agents.RunPublish` | backend/app/agents/integration.py:16-46 | publishes artifact and session and completes the job; passes over a deleted artifact |
| `HandlerColumns.PublishColumns` | backend/app/agents/integration.py:26-44 | a publish handler's refusals, what it writes on artifact, session, log and job, and what it has flushed when it raises |
| `Agents.RunDeletion` | backend/app/agents/deletion.py:22-56 | removes the session's artifacts, or the named file if it exists, or nothing, and completes the job; fails exactly if an existing file cannot be removed |
| `Agents.HandlerEffect` | backend/app/agents/distiller.py:122-144 | a handler that returns completes its own job and no other, and inserts an artifact carrying the job's id exactly if it extracts |
| `Agents.RaisingHandlerFlushes` | backend/app/artifacts/service.py:152-156 | a handler that raises has flushed nothing, except a publish handler its artifact's publication |
| `Agents.PublishTogether` | backend/app/agents/integration.py:35-44 | a publish handler that returns publishes only its own artifact, together with a session that was publishing or published |
| `SystemRuns.StepKeeps` | backend/app/orchestrator/worker.py:148-230 | every step of the engine, requests included, keeps the global invariant, with any number of workers running the same job |
| `SystemRuns.Reachable` | backend/app/sessions/router.py:182-298 | the global invariant holds in every state reachable from empty tables |
| `SystemRuns.StepEvolves` | backend/app/orchestrator/worker.py:82-230 | no step loses a row other than an artifact, changes a key, undoes a completion, clears a tombstone, or shortens a history or the audit log |
| `SystemRuns.ArtifactsFromExtraction` | backend/app/agents/distiller.py:122-132 | an artifact a step adds belongs to the session whose extraction that step commits |
| `SystemInvariant.ProcessingOnlyOnce` | backend/app/orchestrator/service.py:49-60 | outside the early group the pipeline's keys are taken and creation raises |
| `SystemInvariant.StatusKeeps` | backend/app/sessions/router.py:182-224 | the status endpoint keeps the global invariant whatever status is asked for |
| `SystemInvariant.RetractKeeps` | backend/app/sessions/router.py:271-298 | the retract endpoint keeps the global invariant |
| `SystemInvariant.ApproveKeeps` | backend/app/artifacts/service.py:24-69 | approval keeps the global invariant |
| `SystemInvariant.RejectKeeps` | backend/app/artifacts/service.py:72-110 | rejection keeps the global invariant |
| `SystemInvariant.PublishKeeps` | backend/app/artifacts/service.py:113-140 | a publish request keeps the global invariant |
| `SystemInvariant.ExtractKeeps` | backend/app/agents/distiller.py:122-144 | the extraction keeps the global invariant although it writes the status directly |
| `SystemInvariant.HandleKeeps` | backend/app/orchestrator/worker.py:116-129 | every handler that returns keeps the global invariant |
| `SystemInvariant.HalfKeeps` | backend/app/orchestrator/worker.py:210-230 | the deletion half keeps the global invariant with whatever is pending in the shared session |
| `SystemTheorems.SessionsArePartitioned` | backend/app/sessions/router.py:200-221 | every reachable session is early with no job, artifact or deletion job, or has its audio and exactly one job per pipeline key |
| `SystemTheorems.ConsentWasGranted` | backend/app/sessions/router.py:138-177 | every reachable session that is neither idle nor cancelled has a consent grant in the audit log |
| `SystemTheorems.PublishedThroughReview` | backend/app/sessions/service.py:43-88 | the status history of a published, retracting or retracted session passes idle, capturing, processing, needs_review, reviewing, approved, publishing, published in order |
| `SystemTheorems.TraceIsHistory` | backend/app/sessions/router.py:211-212 | no step shortens a session's status history and its end is the current status |
| `SystemTheorems.LookupsAreUnambiguous` | backend/app/agents/distiller.py:148-175 | a reachable session has at most one transcribe and one summarize job |
| `SystemTheorems.StagesHaveCauses` | backend/app/agents/distiller.py:158-159 | a completed summary or extraction has a completed transcription with a payload behind it |
| `SystemTheorems.NothingIsUndone` | backend/app/audit/service.py:1-5 | over any run completions stay, tombstones are not cleared and the audit log only grows |
| `SystemTheorems.ProcessingAccepted` | backend/app/sessions/router.py:200-221 | in every reachable state, entering processing succeeds exactly for the owner's capturing session with audio |
| `SystemTheorems.ProcessingOnce` | backend/app/orchestrator/service.py:49-60 | over any run entering processing succeeds at most once per session |
| `SystemTheorems.PublishAccepted` | backend/app/artifacts/service.py:122-136 | in every reachable state, a publish request succeeds exactly for an approved artifact without a publish job whose session is approved, publishing or publish_failed |
| `SystemTheorems.PublishOnce` | backend/app/artifacts/service.py:126-133 | over any run, deletions included, a publish request succeeds at most once per artifact |
| `SystemTheorems.CancelAccepted` | backend/app/sessions/router.py:258-265 | in every reachable state, cancelling succeeds exactly for the owner's session that owns no row and is not cancelled |
| `SystemTheorems.TerminalLeftByExtraction` | backend/app/agents/distiller.py:134-140 | a step changes the status of a terminal session exactly if it commits an extraction for it |
| `Finality.RetractedFinal` | backend/app/sessions/service.py:61-64 | a reachable retracted session stays retracted over every run if and only if no artifact is left to reject and no extraction is open or executed, or a completed summary that nobody executes names an unknown type |
| `Finality.StuckStep` | backend/app/agents/distiller.py:101-111 | no step lifts that condition or leaves retracted under it |
| `Finality.Leave` | backend/app/agents/distiller.py:95-145 | whenever the condition fails, a run that ends in needs_review |
| `Witness.RetractedIsLeft` | backend/app/agents/distiller.py:139-140 | a run from empty tables that retracts a session and a further one that leaves it |
| `Witness.RetractedStays` | backend/app/agents/distiller.py:108-111 | a run from empty tables that retracts a session for good |
| `Walks.TakeJob` | backend/app/orchestrator/worker.py:53-79 | every job that is not completed can be brought to a worker, after a retry or the timeout, changing nothing but rows that are not completed |
| `JobRows.RowStep` | backend/app/orchestrator/worker.py:53-145 | what every step of the engine does to a job row, by the kind of step alone |
| `JobRows.NewRow` | backend/app/orchestrator/service.py:51-57 | a new job row is pending and comes from entering processing, a rejection or a publish request |
| `JobRows.FailedUntilRetried` | backend/app/orchestrator/worker.py:71-74 | a step takes a job out of failed exactly if it retries it or ends an execution of it whose handler returns |
| `JobRows.Frozen` | backend/app/orchestrator/worker.py:71-74 | a completed job nobody executes is never changed again |
| `JobRows.RetractedByRequest` | backend/app/sessions/router.py:200-212 | a step moves a session into retracted exactly if it is its owner's status request from retracting |
| `SystemTheorems.CancelledForGood` | backend/app/sessions/service.py:61-64 | over any run a cancelled session stays cancelled |
| `Saga.SagaRecovers` | backend/app/agents/deletion.py:22-56 | after an accepted retraction and any further run, once the row job is completed the session has artifacts exactly if an extraction committed after the last removal; a completed audio job means the file is gone; the tombstone stands |
| `Saga.ArtifactsRemain` | backend/app/agents/deletion.py:30-34 | over any run, a session has artifacts at the end exactly if an extraction committed after the last removal, or it had some and none were removed |
| `Saga.RetractionStarts` | backend/app/sessions/service.py:117-131 | what an accepted retraction leaves for the saga |
| `Saga.ArtifactsGoneByOwnJob` | backend/app/agents/deletion.py:30-34 | over any run an artifact disappears only by a row deletion job of its session |
| `Saga.FilesGoneByOwnJob` | backend/app/agents/deletion.py:40-47 | over any run a file disappears only through an audio deletion job of the session it was uploaded for |
| `Saga.ScheduleIrrelevant` | backend/app/orchestrator/worker.py:192-230 | for any order, crashes and repetitions, once all deletion jobs are completed tables and files equal those of one clean run in any order, and a result stated without a schedule |
| `Saga.AlwaysPartway` | backend/app/agents/deletion.py:40-47 | at every moment rows are gone exactly for completed jobs, and files at least for completed and at most for all jobs |
| `Saga.CleanRunCompletes` | backend/app/agents/deletion.py:22-56 | one clean run completes exactly the jobs it attempts |
| `PollCycle.Poll` | backend/app/orchestrator/worker.py:178-187 | one cycle: the job half's outcome, an eligible deletion exactly if one exists, and what the shared session commits |
| `PollCycle.PollIsClaimAndFinish` | backend/app/orchestrator/worker.py:180-182 | a cycle that claims a job, with its three times, is a run of the engine's machine: claim, handler's time, finish, time until the deletion half |
| `PollCycle.IdlePollIsDeletionStep` | backend/app/orchestrator/worker.py:151-156 | a cycle without a claim is an idle deletion attempt, which carries the pending release into its commit |
| `PollCycle.AlwaysPrompt` | backend/app/sessions/service.py:124-130 | in every reachable state no deletion job has a due time |
| `PollCycle.PublicationIsAtomicOrLeaked` | backend/app/artifacts/service.py:143-158 | a step that publishes an artifact ends its publish job; a publishable session is published in the same commit, any other stays as it was and the deletion half has committed |
| `PollCycle.PublishRaises` | backend/app/artifacts/service.py:176-179 | a publish handler raises exactly if its artifact is there and the session is neither publishing nor published |
| `PollCycle.PublishOutcome` | backend/app/orchestrator/worker.py:180-182 | by the session's status beforehand: published together unless the deletion half removes the artifact, or the session stays and the artifact is published exactly if the deletion half commits and spares it |
| `Leak.PublicationLeaks` | backend/app/orchestrator/worker.py:180-182 | from any world with a publication under way and another session's deletion job eligible, a request and the job's end that leave the artifact published and the session publish_failed |
| `Leak.LeakIsReachable` | backend/app/artifacts/service.py:152-156 | a run from empty tables that ends so |
| `Leak.PublicationIsReachable` | backend/app/agents/integration.py:35-44 | a run from empty tables that ends with artifact and session published |
| `PipelineOrder.CreatedTogether` | backend/app/orchestrator/service.py:49-60 | one creation makes three pending jobs ranked equally by the claim |
| `PipelineOrder.AnyMayBeClaimed` | backend/app/orchestrator/worker.py:70-77 | at any time whichever of the three is pending may be claimed next |
| `PipelineOrder.ExtractionNeedsTranscriptFirst` | backend/app/agents/distiller.py:148-160 | with all providers answering, every order of the three is a sequence of legal claims, and the session reaches review exactly if the transcription ran before the extraction; otherwise the extraction has failed |
| `PipelineOrder.AcceptedJobsRunInAnyOrder` | backend/app/sessions/router.py:214-221 | the same from every accepted entry into processing in every reachable state |

## Left out

- LeaseTheorems.LeaseSafety: a claim's or heartbeat's time stamp and its commit are one instant; the delay between them belongs to the jitter, and clock skew between workers is not modelled.
- Insertions.InsertedOnce: that no claim takes an executed job is a premise here; it is what the lease machine proves under its timing condition.
- Drain.DrainQueues: speaks of one worker on queues that nobody else adds to; the lease machine covers many.
- Saga.ScheduleIrrelevant: deletion attempts only; `Saga.SagaRecovers` admits every other step in between.
- PipelineOrder.ExtractionNeedsTranscriptFirst: first executions of one session's three jobs, without retries in between, the other sessions' rows being skipped.
- RetryBudget.RetryCountIsCapped: a job of an unknown type is failed without touching the count and is not part of the cycling.
- Finality.RetractedFinal: runs of the engine's machine, in which a failed job may be retried at any time and providers may answer at any time.
- SystemTheorems.PublishOnce: new row identifiers and file names are assumed fresh, as random UUIDs are.
- A claim of the engine's machine may take any claimable row: other workers' open claims, which that machine does not have, may lock the rest (`Worker.EveryClaimIsPossible`).
- Transactions of the engine's machine are serialised; only the lease machine has open transactions and row locks. A database error inside a handler, and a commit that fails, are not modelled.
- A raised refusal of the operating system to remove a file is modelled; a partial write of an uploaded file is not.
- Providers are arbitrary: they raise or answer. A model answer that is not an object or null, prompts, JSON schemas and artifact content are not modelled.
- HTTP codes and exception classes are one `Error` enumeration; routing, schemas, listing, pagination, authentication and slugs only add members without state.
- Editing an artifact's title, content and summary, the audit read endpoint, log messages, and the columns nothing branches on.
- The policy engine appears only as the published-before-retract guard; redlines and the sensitive-content check decide nothing else here.
- Jobs without a session, which no modelled operation creates, and unknown deletion types.
- Cascades and foreign keys of the schema, since no modelled operation deletes a session or a job.
- `retry_job` has no endpoint; the engine's machine lets it happen to any failed job at any time.
