# A verified model of the video platform

Two services: a backend that takes uploads, keeps videos in Postgres, serves its own log file and issues
JWTs, and an event service that fans each upload out into three jobs and reports back. This project models
their hard core in Dafny and proves what the code guarantees, and exactly where it does not.
`dafny verify dfyconfig.toml` checks everything.

## How it is modelled

**The pipeline.** `Uploads`, `OutboxRelay`, `MediaProcessing` and `StatusConsumer` are state machines: one
step per awaited call on a store, any number of calls, relays, handlers, workers and consumers in flight,
in any order. A store call ends `Done`, `Refused` (no effect, raised) or `Lost` (took effect, but the caller
sees a failure); a process may crash between any two calls; join and inbox keys may expire at any moment;
anything may be delivered again. A step that is not enabled is no step, so the theorems range over all
sequences of steps. `Pipeline` composes the four and states the end-to-end results; its state carries
histories (completions, enqueues, marks, what was asked of each video, verdicts, broadcasts) that the code does not keep.
`MarkRaces` takes apart the status marks that these treat as one step, and `SplitMarks` does so in the whole pipeline; both
say exactly when that is safe.
`CredentialRuns` is the state machine of the credential calls: every await, every clock read and every signature of a
refresh, login, revocation or authenticated request is a step of its own.

**The use cases.** Each use case, store and consumer is also a class. Its methods make the service's store calls in order,
with the result of each call as a parameter, and are proved against a specification function for every combination of
results. Lemmas named `…IsSteps` or `Uninterrupted…` show that the machine's steps, taken without interleaving, are that
method.

| module | what it models |
|---|---|
| Uploads, UploadVideoUC | the upload transaction, idempotency keys, unit of work, sweeper |
| OutboxRelay | relays that claim with skip-locked, publish, mark and commit |
| MediaProcessing, MediaProcessingUC, StatusOrder | handlers, inbox, fan-out, jobs, join, retries, terminal hook |
| StatusConsumer, StatusDrain, MarkRaces | the consumer group, pending list, ack rule and the Mark*UC use cases; their loads and saves interleaved |
| Pipeline, SplitMarks, StuckVideo | the four together; with marks split into load and save; a fault-free run that leaves a finished video PROCESSING |
| VideoAgg, VideoTable, Keyset | the status machine, the videos table, keyset pages |
| Canonical | canonical JSON and the payload fingerprint |
| LogLines, LogFileSource, FileLogReader, LogFollow, LogExport, Utf8 | the log file: reverse and forward chunked readers, paging, tail -F, export, byte-budget cut (`LineTruncation`, in Utf8.dfy) |
| Credentials, CredentialRuns | JWT lifetimes, rotation, denylist, logins, deactivation; all calls interleaved |
| Wrappers | Option, Result, Reply, folds |

## Where the code and its documentation disagree

- `docs/contract/video_status.md:76-78` says that started always precedes processed on the stream. Jobs are
  enqueued before started is published, so they can overtake it. `Pipeline.OrderIsSafeIff` says exactly from which states
  that can still happen to the videos already uploaded: those in which one of them lacks its started event; a video uploaded
  later can always be overtaken. `StuckVideo.OvertakenVideoSticks` is a run on which it happens.
- The consumer acknowledges refused events as permanently inapplicable
  (`src/litestar_backend/src/media_example/adapters/driving/status_consumer.py:84-85`). For processed on a PENDING
  video that is not so, and for every other refusal it is: `StatusConsumer.RefusalIsPermanentIff`, and over runs
  `Pipeline.EveryEventIsAccountedFor`. Hence "all jobs done" does not imply DONE; what does is
  `Pipeline.DeliveriesDecideStatus`.
- The Mark*UC use cases mean to move a video along `_ALLOWED` only, but check first and write in a later await. When that
  is safe: `MarkRaces.LegalIffUndisturbed`, and for the whole system `SplitMarks.MarksIffUndisturbed`. A run on which it is
  not: `MarkRaces.StaleSaveOverwrites`.
- A refresh token is meant for one use (`src/litestar_backend/src/auth/app/use_cases/refresh_tokens_uc.py:37`), and
  deactivation is meant to cut a user off (`:25-26`, `src/litestar_backend/src/auth/app/use_cases/login_user_uc.py:15-16`).
  Refreshes and logins check first, and write or sign in a later await. When that is safe: `CredentialRuns.OnePairEachIff`,
  `CredentialRuns.RevokedIsMissedIff` and `CredentialRuns.NothingSignedLateIff`. Runs on which it is not:
  `CredentialRuns.RacedTwice`, `CredentialRuns.ExpiredTwice` and `CredentialRuns.LateLoginResolves`.
- `_read_delta` means to advance past confirmed newlines only and to keep the partial line in the carry. It does
  both, so the partial line is read twice: `LogFollow.TornTailIsRepeated`. `LogFollow.FollowFromEndOfFile` says exactly
  for which runs of polls the follower is right.
- The NDJSON export promises raw lines verbatim
  (`src/litestar_backend/src/admin/log/app/export_logs_uc.py:22`). Carriage returns before a newline and invalid UTF-8
  are changed, and nothing else is: `LogExport.ExportIsVerbatimIff`; the smallest file is in `LogExport.CarriageReturnIsLost`.
- `_read_lines_before` expects its offset at a line start
  (`src/litestar_backend/src/admin/log/adapters/driven/log_file_source.py:160-162`); the model covers any offset, where
  an unterminated last piece is returned as a line.

## Model

| member | source | states |
|---|---|---|
| Pipeline.EveryStatusEventWasUploaded | src/event_microservice/src/media_processing/app/on_video_uploaded_uc.py:14-20 | over every run of the whole system, each event on `video_status` names a video whose row and outbox row were committed together and whose upload message is on the upload stream |
| Pipeline.MarkedEventsAreFannedOut | src/event_microservice/src/media_processing/app/on_video_uploaded_uc.py:15-20 | whatever the inbox has marked was uploaded as that very event, has had all three kinds enqueued and a started event published |
| Pipeline.AckedUploadsAreFannedOut | src/event_microservice/src/media_processing/adapters/driving/uploaded_consumer.py:34-42 | an upload message is acknowledged only once its event was fanned out |
| Pipeline.ProcessedMeansAllWorkDone | src/event_microservice/src/media_processing/app/complete_job_uc.py:16-23 | join soundness: a published processed event has a completion of every one of the three kinds behind it, whatever is duplicated, retried, cleared or expired |
| Pipeline.FullJoinIsNeverLost | src/event_microservice/src/media_processing/app/complete_job_uc.py:16-23 | while a video's join holds every kind, processed is on the stream or some job still owes it: about to publish, failed and on its way through a retry, in the terminal hook, or past a hook whose clear failed |
| Pipeline.FailedMeansAJobGaveUp | src/event_microservice/src/root/entrypoints/saq_worker.py:40-54 | a failed event is published only of a video one of whose jobs has used up exactly its allowed attempts |
| Pipeline.OutboxIsConserved | src/litestar_backend/src/shared/adapters/driven/outbox_relay.py:52-68 | in every reachable state: nothing on the stream without its committed row, every sent row on the stream, no row held by two relays, and copies == sent + aborted drains that had published it + an open drain that has |
| Pipeline.EveryEventIsAccountedFor | src/litestar_backend/src/media_example/adapters/driving/status_consumer.py:77-148 | each status event is exactly one of undelivered, pending with one consumer, acknowledged; acknowledged only with a verdict; and every verdict is right: applied where the status of its video allowed it, refused where that status did not and rightly at every later point too, unless it was processed on a PENDING video, or dropped because its video is deleted |
| Pipeline.EffectsHappenOnce | src/litestar_backend/src/media_example/app/status_ucs.py:14-53 | an event moves its video at most once however often it is delivered; a committed move is broadcast at most once, never before its commit, and nothing else is; every video's committed history is a path of `_ALLOWED` with at most two moves that ends in its stored status |
| SplitMarks.MarksIffUndisturbed | src/litestar_backend/src/media_example/app/status_ucs.py:14-53 | over every run of the whole system with the load and the save of every mark as separate steps: every save made the move that the one-step mark would make exactly when, for each, no other move of its video (except by started under a failure) and no deletion fell between its load and itself |
| SplitMarks.UndisturbedIsFused | src/litestar_backend/src/media_example/app/status_ucs.py:14-53 | a run on which that is so is a run of the one-step system, so every result over all runs of that holds of it |
| SplitMarks.SplitEffectsHappenOnce | src/litestar_backend/src/media_example/app/status_ucs.py:14-53 | with loads and saves apart, on those runs: an event moves its video at most once, a committed move is broadcast at most once, and every committed history is a path of `_ALLOWED` that ends in the stored status |
| SplitMarks.OneStepIsSplit | src/litestar_backend/src/media_example/app/status_ucs.py:14-53 | every run of the one-step system is such a run, with each save right after its load |
| SplitMarks.SplitStepKeepsInv | src/litestar_backend/src/media_example/app/status_ucs.py:14-53 | every step of the system with split marks keeps the invariant behind these results |
| Pipeline.DeliveriesDecideStatus | src/litestar_backend/src/media_example/adapters/driving/status_consumer.py:150-195 | over every run, a stored status is decided by the order of the requests handled for its video alone: DONE iff some started was handled before some processed with no failure or cancel before that; FAILED, PROCESSING likewise; and each handled request is on the stream or a cancel |
| Pipeline.OrderIsSafeIff | src/event_microservice/src/media_processing/app/on_video_uploaded_uc.py:14-20 | from any reachable state, every continuation of the service keeps started before processed, for the videos uploaded so far, exactly when the stream does so far and every uploaded video already has its started event there |
| StuckVideo.OvertakenVideoSticks | src/event_microservice/src/media_processing/app/on_video_uploaded_uc.py:14-20 | a run of the whole system in which nothing fails and which ends with all three kinds completed, the upload message and both status events acknowledged, and the video PROCESSING |
| Pipeline.StoredStatusIsTrue | src/litestar_backend/src/media_example/adapters/driving/status_consumer.py:150-195 | end to end: DONE only if the work of all three kinds was completed, FAILED only after a user's cancel or a job that used up its attempts, PROCESSING or DONE only for an uploaded video |
| Pipeline.StepKeepsInv | src/litestar_backend/src/media_example/adapters/driving/status_consumer.py:150-195 | every step of every component, with every fault, keeps the joint invariant |
| Uploads.KeyExistsOnlyWithItsEffect | src/litestar_backend/src/media_example/app/upload_video_uc.py:63-69 | a key row exists only with the video row and the outbox row of its upload |
| Uploads.OneUploadPerKeyLife | src/litestar_backend/src/media_example/ports/driven/sql_idempotency_store.py:45-64 | between two uploads created under one key there is always a sweep of that key, under any interleaving of claims, rollbacks and crashes |
| Uploads.UploadsAreSpaced | src/litestar_backend/src/media_example/ports/driven/sql_idempotency_store.py:45-64 | the later of two uploads under one key was inserted after the earlier one had expired, however long its INSERT waited, and expires no later than the retention after that |
| Uploads.ReplayReturnsFirstSnapshot | src/litestar_backend/src/media_example/app/upload_video_uc.py:82-94 | a replay answers with the snapshot committed for the same payload, still PENDING whatever status moves came since, with no sweep of the key in between |
| Uploads.RefusalsAreJustified | src/litestar_backend/src/media_example/app/upload_video_uc.py:82-90 | key reuse is reported only while the key stands for another payload; a vanished key only after an upload under that key and a later sweep of it |
| Uploads.OnlyWinnersWrite | src/litestar_backend/src/media_example/app/upload_video_uc.py:62-69 | in every reachable state, the confirmed commit of a call that won its claim (or has no key) adds exactly its video row, outbox row and key row and leaves every other row as it was; every other step of any call leaves every table as it was |
| Uploads.LosersStayLosers | src/litestar_backend/src/media_example/app/upload_video_uc.py:82-94 | a call that lost its claim can only look up and end |
| Uploads.StepKeepsInv | src/litestar_backend/src/shared/adapters/driven/postgres/uow.py:26-33 | every await of every upload, each sweep, move and deletion keeps the invariant (committed together, keys agree with the history, locks, fresh ids) |
| UploadVideoUC.UploadVideoUC.Call | src/litestar_backend/src/media_example/app/upload_video_uc.py:53-94 | the method, await by await, leaves the rows and gives the answer of the specification for every combination of failures; what these are is said by the three members below and by `UploadVideoUC.CallIsSteps` |
| UploadVideoUC.FirstUpload | src/litestar_backend/src/media_example/app/upload_video_uc.py:53-80 | without failures, an upload under a fresh key or none leaves one more PENDING video with the fields asked for, its outbox row and its key row, nothing else different, and answers with that video, not replayed |
| UploadVideoUC.RetryAnswers | src/litestar_backend/src/media_example/app/upload_video_uc.py:82-94 | a second upload under the key changes no table; it answers with the first video, replayed, exactly when source key and document (up to key order) are the same, and otherwise that the key was reused |
| UploadVideoUC.AnswersUnderFailure | src/litestar_backend/src/media_example/app/upload_video_uc.py:53-94 | whatever fails: a blank source key is refused and nothing else is refused so; the tables gain one whole upload or nothing; a fresh answer means the upload is there, a replay answers with the stored snapshot and the fingerprints agree, a reused key means that they do not; unavailable needs a failing await |
| UploadVideoUC.Session.Claim | src/litestar_backend/src/media_example/ports/driven/sql_idempotency_store.py:45-64 | insert on conflict do nothing: won exactly when no committed row has the key; snapshot, fingerprint and expiry are what was claimed |
| UploadVideoUC.Session.Commit | src/litestar_backend/src/shared/adapters/driven/postgres/uow.py:26-33 | everything staged becomes visible, or nothing does |
| UploadVideoUC.IdempotencySweeper.PurgeOnce | src/litestar_backend/src/shared/adapters/driven/idempotency_sweeper.py:43-49 | deletes exactly the keys past their expiry and returns how many |
| UploadVideoUC.SweepIsPurge | src/litestar_backend/src/shared/adapters/driven/idempotency_sweeper.py:33-49 | the protocol's sweep deletes those same keys and touches nothing else |
| UploadVideoUC.CallIsSteps | src/litestar_backend/src/media_example/app/upload_video_uc.py:53-94 | run without interleaving, the protocol's steps of one call leave the tables that the method leaves, and log what the method answers: a replay with that very video, a creation whose key row stores that video, a rejection of that key, or nothing |
| Canonical.CanonicalDecidesEquality | src/litestar_backend/src/media_example/app/upload_video_uc.py:29-37 | two documents have the same canonical form exactly when they are equal ignoring key order at every depth |
| Canonical.CanonicalIdempotent | src/litestar_backend/src/media_example/app/upload_video_uc.py:29-37 | a canonical form is its own canonical form |
| Canonical.CanonicalKeepsMeaning | src/litestar_backend/src/media_example/app/upload_video_uc.py:29-37 | the canonical form means the same document and is well formed |
| Canonical.FingerprintDecidesPayload | src/litestar_backend/src/media_example/app/upload_video_uc.py:40-42 | two uploads have the same fingerprint exactly when source key and document are the same payload |
| Canonical.SameMeaningIsSameDocument | src/litestar_backend/src/media_example/app/upload_video_uc.py:29-37 | what having the same meaning is, without the canonical form: equal scalars, lists item by item, mappings with the same keys and values key by key |
| Canonical.LessIsLexicographic | src/litestar_backend/src/media_example/app/upload_video_uc.py:31-33 | the order of the sorted keys is that of `str`: the first difference decides, and a proper prefix comes first |
| OutboxRelay.RelayStepKeepsInv | src/litestar_backend/src/shared/adapters/driven/outbox_relay.py:52-68 | each claim, xadd, commit, failure and crash of any relay keeps disjoint locks, committed messages and the copy count |
| OutboxRelay.NewRowsKeepInv | src/litestar_backend/src/shared/adapters/driven/outbox_relay.py:33-40 | rows committed meanwhile disturb none of it |
| OutboxRelay.FaultFreeRelay | src/litestar_backend/src/shared/adapters/driven/outbox_relay.py:33-68 | a lone relay without faults can drain any outbox until nothing is unsent, and however it does, it empties n rows in ceil(n / batch) drains, each row once, in non-decreasing created_at order |
| OutboxRelay.OutboxTable.Claim | src/litestar_backend/src/shared/adapters/driven/outbox_relay.py:33-40 | the claim query: the oldest unsent rows that no other drain holds, distinct, up to the batch size, none older left out |
| OutboxRelay.ClaimIsValid | src/litestar_backend/src/shared/adapters/driven/outbox_relay.py:33-40 | what the query may return is exactly what a relay's claim in the protocol may take |
| OutboxRelay.OutboxRelay.DrainOnce | src/litestar_backend/src/shared/adapters/driven/outbox_relay.py:52-68 | one drain: it takes what the claim query returns; the stream gets those rows up to the first failed xadd, all are marked sent or none, and what is returned, for every combination of failures; a drain that returns n put exactly the n messages (row id and its video) of its rows on the stream and marked those rows |
| OutboxRelay.PublishedInWords | src/litestar_backend/src/shared/adapters/driven/outbox_relay.py:57-66 | which rows a drain has published: all before the last were answered, the last took effect, and the next failed |
| OutboxRelay.DrainIsSteps | src/litestar_backend/src/shared/adapters/driven/outbox_relay.py:52-68 | the protocol's steps of a drain do to stream, marks and locks what the method does |
| OutboxRelay.DrainedIsSteps | src/litestar_backend/src/shared/adapters/driven/outbox_relay.py:52-68 | the fault-free drain is a run of the protocol's own steps |
| MediaProcessing.ServiceStepKeepsInv | src/event_microservice/src/media_processing/app/complete_job_uc.py:16-23 | each await of handlers and jobs, each failure, crash and expiry keeps join soundness, full-join coverage, fan-out order and causality |
| MediaProcessing.StepWithinRetries | src/event_microservice/src/root/entrypoints/saq_worker.py:40-54 | a job never starts more attempts than it has, and only a job that used them all reaches the terminal hook |
| MediaProcessing.FullIsAllKinds | src/event_microservice/src/media_processing/domain/join_policy.py:3-4 | a join set reaches the fan-out exactly when it holds every kind |
| MediaProcessingUC.CompleteJobUC.Call | src/event_microservice/src/media_processing/app/complete_job_uc.py:16-23 | add, publish when full, then clear, with every way each can fail: join, stream and outcome |
| MediaProcessingUC.CompleteInWords | src/event_microservice/src/media_processing/app/complete_job_uc.py:16-23 | whatever fails: the kind joins those of its video; only the add that finds all three announces the video, once, and then forgets it; other videos are untouched; when the call returns |
| MediaProcessingUC.ThreeCompletionsAnnounce | src/event_microservice/src/media_processing/app/complete_job_uc.py:16-23 | three completions in any order without a fault: two announce nothing, the last announces the video once and leaves the join as it was before the first |
| MediaProcessingUC.CompleteIsSteps | src/event_microservice/src/media_processing/app/complete_job_uc.py:16-23 | the protocol's three steps of a completion, uninterrupted, are that call |
| MediaProcessingUC.OnJobFailedUC.Call | src/event_microservice/src/media_processing/app/on_job_failed_uc.py:15-24 | the clear follows whether or not the failed event was published; only the clear's failure is raised |
| MediaProcessingUC.JobFailedIsSteps | src/event_microservice/src/media_processing/app/on_job_failed_uc.py:15-24 | the protocol's two steps of the terminal hook are that call |
| MediaProcessingUC.SaqWorker.RunJob | src/event_microservice/src/media_processing/adapters/driving/saq_jobs.py:14-44 | a job completes only after its work: a failed one touches neither join nor stream |
| MediaProcessingUC.SaqWorker.AfterProcess | src/event_microservice/src/root/entrypoints/saq_worker.py:40-54 | terminal exactly for a failed job with no attempt left; the hook's own failure is swallowed |
| MediaProcessingUC.OnVideoUploadedUC.Call | src/event_microservice/src/media_processing/app/on_video_uploaded_uc.py:14-20 | seen check, three enqueues in order, started, mark: queue, stream, inbox and outcome for every failure |
| MediaProcessingUC.HandleInWords | src/event_microservice/src/media_processing/app/on_video_uploaded_uc.py:14-20 | whatever fails: a seen event changes nothing; otherwise job i is queued exactly when the ones before it were answered and its own call took effect, the start is announced exactly when all were, and the mark set exactly after that; when the call returns |
| MediaProcessingUC.ReturnedMeansFannedOut | src/event_microservice/src/media_processing/app/on_video_uploaded_uc.py:14-20 | a return leaves the mark; a new mark means each kind was queued once and the start announced once; a seen event changes nothing |
| MediaProcessingUC.HandleIsSteps | src/event_microservice/src/media_processing/app/on_video_uploaded_uc.py:14-20 | the protocol's steps of a handler, uninterrupted, queue the same jobs, publish and mark the same and go on to acknowledge exactly when the call returned |
| MediaProcessingUC.UploadedConsumer.OnVideoUploaded | src/event_microservice/src/media_processing/adapters/driving/uploaded_consumer.py:29-42 | acknowledges after success or a malformed payload, never after a raised failure; what it changes and whether it raises in each case |
| MediaProcessingUC.ValkeyJoinStore.Add | src/event_microservice/src/media_processing/ports/driven/valkey_join_store.py:22-33 | adds the kind, gives the whole set a new deadline and returns the size of what is alive |
| MediaProcessingUC.ValkeyInboxStore.MarkProcessed | src/event_microservice/src/media_processing/ports/driven/valkey_inbox_store.py:27-33 | set if absent: a live mark keeps its first deadline |
| MediaProcessingUC.ValkeyEventPublisher.Publish | src/event_microservice/src/media_processing/ports/driven/valkey_event_publisher.py:31-49 | appends one event or raises |
| MediaProcessingUC.SaqJobQueue.Enqueue | src/event_microservice/src/media_processing/ports/driven/saq_job_queue.py:18-27 | queues one job or raises |
| MediaProcessingUC.TimeOnlyExpires | src/event_microservice/src/media_processing/ports/driven/valkey_join_store.py:26-28 | time passing only takes join and inbox keys away: the protocol's expiry steps |
| StatusOrder.OrderIsSafeIff | src/event_microservice/src/media_processing/app/on_video_uploaded_uc.py:14-20 | for any state of the service with one video per event id, the exact condition under which every continuation, over the videos uploaded so far, keeps started before processed |
| StatusOrder.OvertakingRuns | src/event_microservice/src/media_processing/app/on_video_uploaded_uc.py:14-20 | from any state, an upload that is neither acknowledged nor marked can be handled without a fault so that processed is published while its handler has yet to publish started |
| VideoAgg.HistoryIsPath | src/litestar_backend/src/media_example/domain/video_agg.py:10-15 | for any requests the committed history is a path of `_ALLOWED`, ends in the current status and has at most two moves |
| VideoAgg.FinalFromPending | src/litestar_backend/src/media_example/domain/video_agg.py:64-76 | from PENDING the final status is DONE iff some started precedes some processed with no failed before it, FAILED iff not so and a failed occurs, PROCESSING iff neither and a started occurs |
| VideoAgg.RedeliveryChangesNothing | src/litestar_backend/src/media_example/domain/video_agg.py:64-76 | an event that took effect changes nothing when it is delivered again, whatever happened in between |
| VideoAgg.Video.Transition | src/litestar_backend/src/media_example/domain/video_agg.py:64-67 | moves exactly along `_ALLOWED`; otherwise raises with both statuses and leaves the status alone |
| VideoAgg.Video.Upload | src/litestar_backend/src/media_example/domain/video_agg.py:27-45 | refuses a blank key, else a PENDING video with one upload event |
| VideoAgg.Video.CollectEvents | src/litestar_backend/src/media_example/domain/video_agg.py:78-81 | hands the events out once |
| StatusConsumer.ConsumerStepKeepsInv | src/litestar_backend/src/media_example/adapters/driving/status_consumer.py:77-148 | each read, claim, handling, broadcast, ack, crash and cancel keeps conservation, handled-before-acked with a verdict that the video's status at that point justifies, broadcast-once, and every stored status decided by what was asked |
| StatusConsumer.CommittedHistoryIsPath | src/litestar_backend/src/media_example/app/status_ucs.py:14-53 | the history of a video for all that was asked of it is a path of `_ALLOWED` with at most two moves and ends in its stored status |
| StatusConsumer.AppliedOnce | src/litestar_backend/src/media_example/adapters/driving/status_consumer.py:150-195 | an entry takes effect at most once |
| StatusConsumer.StatusWasAskedFor | src/litestar_backend/src/media_example/adapters/driving/status_consumer.py:150-195 | a stored status is what the order of the requests handled for the video decides, and each of those requests is an event on the stream or a user's cancel |
| StatusConsumer.RefusalIsPermanentIff | src/litestar_backend/src/media_example/adapters/driving/status_consumer.py:173-180 | a refused move is permanently inapplicable, as the consumer assumes, exactly unless it is processed on a PENDING video |
| StatusConsumer.RefusalStaysRight | src/litestar_backend/src/media_example/adapters/driving/status_consumer.py:173-180 | a refused entry was refused by the status its video had, and that refusal stays right after everything asked later, unless it was processed on a PENDING video |
| MarkRaces.LegalIffUndisturbed | src/litestar_backend/src/media_example/app/status_ucs.py:14-21 | with load and save as separate steps, over every run: the committed saves are moves of `_ALLOWED` exactly when no save of the same video falls between a call's load and its save, except a started save under a call that marks FAILED |
| MarkRaces.FusedIffUndisturbed | src/litestar_backend/src/media_example/app/status_ucs.py:14-21 | exactly on those runs the same calls take effect as if each loaded, checked and saved in one step when it ended, and then the stored statuses are the same too |
| MarkRaces.UndisturbedEffectsOnce | src/litestar_backend/src/media_example/app/status_ucs.py:14-21 | on those runs a request takes effect at most once on a video, however many deliveries race for it |
| MarkRaces.UninterruptedIsMarked | src/litestar_backend/src/media_example/app/status_ucs.py:14-21 | a load and a save that nothing comes between are the one-step mark of the other modules |
| MarkRaces.StaleSaveOverwrites | src/litestar_backend/src/media_example/app/status_ucs.py:14-21 | the run on which it fails: a cancel between the load and the save of a completion, and the cancelled video becomes DONE |
| StatusDrain.MarkUC.Call | src/litestar_backend/src/media_example/app/status_ucs.py:14-53 | load, check, save, then broadcast, for every failure: not found exactly for a video that is missing or deleted, refused with both statuses exactly when the status does not allow the move, otherwise only the row's status moves, and exactly a success is broadcast |
| StatusDrain.MarkInWords | src/litestar_backend/src/media_example/app/status_ucs.py:14-53 | the same of the specification function that the consumer and the protocol are compared with |
| StatusDrain.MarkSucceedsIff | src/litestar_backend/src/media_example/app/status_ucs.py:14-53 | when load and save are answered, a mark succeeds exactly for a live video whose status allows the move, and is not found exactly for one that is not there |
| StatusDrain.CancelIsSteps | src/litestar_backend/src/media_example/app/status_ucs.py:46-53 | a user's cancel in the protocol, and the broadcast after it, do to rows and feed what the mark does, and touch no entry |
| StatusDrain.VideoStatusConsumer.Handle | src/litestar_backend/src/media_example/adapters/driving/status_consumer.py:150-195 | malformed, unknown, refused and applied entries are to be acknowledged, a transient failure is not |
| StatusDrain.VideoStatusConsumer.ApplyEntries | src/litestar_backend/src/media_example/adapters/driving/status_consumer.py:141-148 | the loop does entry by entry what the specification says and stops at the first failure |
| StatusDrain.VideoStatusConsumer.ClaimStale | src/litestar_backend/src/media_example/adapters/driving/status_consumer.py:107-139 | adopts idle pending entries only and applies them; a missing group is created anew and 0 returned; any other error ends the drain |
| StatusDrain.VideoStatusConsumer.DrainOnce | src/litestar_backend/src/media_example/adapters/driving/status_consumer.py:77-105 | rows, feed, pending list, acknowledgements and result of a drain, whether it returns or raises: what it claimed and read, applied in that order until the first failure; a drain that returns gives the number of entries it took, and all of these are acknowledged |
| StatusDrain.DrainAcks | src/litestar_backend/src/media_example/adapters/driving/status_consumer.py:77-105 | a drain that returns has acknowledged all it took, and their number is what it returns; nothing else is acknowledged and whatever else was pending still is |
| StatusDrain.ConsumerGroup.EnsureGroup | src/litestar_backend/src/media_example/adapters/driving/status_consumer.py:58-66 | the group exists afterwards, whether it did before or not |
| StatusDrain.AcksInOrder | src/litestar_backend/src/media_example/adapters/driving/status_consumer.py:141-148 | a batch acknowledges its entries in order; the entry that fails and all after it stay as they were |
| StatusDrain.ConsumerGroup.AutoClaim | src/litestar_backend/src/media_example/adapters/driving/status_consumer.py:119-127 | the oldest idle pending entries, up to the batch size, reassigned to the caller |
| StatusDrain.ConsumerGroup.ReadNew | src/litestar_backend/src/media_example/adapters/driving/status_consumer.py:97-103 | the next undelivered entries in stream order, as many as there are up to the count, pending with the caller |
| StatusConsumer.AssignInWords | src/litestar_backend/src/media_example/adapters/driving/status_consumer.py:119-127 | a read or a claim makes exactly the named entries the caller's |
| StatusDrain.RoundIsSteps | src/litestar_backend/src/media_example/adapters/driving/status_consumer.py:141-195 | the protocol's three steps for the head of a batch do what one round of the loop does: rows, feed, pending list, acknowledgements |
| Keyset.WalkDescends | src/litestar_backend/src/shared/adapters/driven/postgres/keyset.py:8-17 | following cursors while rows come and go: each row after another has an earlier timestamp, or the same timestamp and a smaller id, so newest first and none twice |
| Keyset.WalkMissesNothing | src/litestar_backend/src/media_example/ports/driving/media_facade.py:81-85 | a row visible at every page read is returned, once, by a walk that ended |
| Keyset.QuietWalkLength | src/litestar_backend/src/media_example/ports/driving/media_facade.py:81-85 | with no writes, n rows take floor(n / limit) + 1 pages |
| VideoTable.SqlVideoRepo.ListPage | src/litestar_backend/src/media_example/ports/driven/sql_video_repo.py:63-78 | rows that are live, with their stored fields, newest first by timestamp and then id; all of them below the cursor; a live row below the cursor is left off only by a full page of rows above it; a next cursor, the last row, exactly after a full page |
| VideoTable.SqlVideoRepo.Save | src/litestar_backend/src/media_example/ports/driven/sql_video_repo.py:33-51 | insert, or update of the status only |
| VideoTable.SqlVideoRepo.GetById | src/litestar_backend/src/media_example/ports/driven/sql_video_repo.py:53-61 | finds exactly the rows that are not deleted |
| VideoTable.SqlVideoRepo.SoftDelete | src/litestar_backend/src/media_example/ports/driven/sql_video_repo.py:80-90 | marks a live row deleted, and says whether it did |
| VideoTable.WritesInWords | src/litestar_backend/src/media_example/ports/driven/sql_video_repo.py:33-90 | a save of a new video stores its fields, a save of a stored one moves its status only; a deletion marks the row only; no other row changes |
| VideoTable.TimestampsNeverMove | src/litestar_backend/src/media_example/ports/driven/sql_video_repo.py:43-46 | no write of the repository changes a timestamp or undeletes a row |
| VideoTable.WalkReturnsEachVideoOnce | src/litestar_backend/src/media_example/ports/driven/sql_video_repo.py:63-78 | over a table that only the repository writes, a walk returns no video twice |
| LogFileSource.LogFileSource.ReadLastLines | src/litestar_backend/src/admin/log/adapters/driven/log_file_source.py:104-128 | the last min(limit, n) newline-terminated lines and the byte where the first starts, for every file and chunk size |
| LogFileSource.LogFileSource.ReadLinesBefore | src/litestar_backend/src/admin/log/adapters/driven/log_file_source.py:145-172 | the same for the region before any offset |
| LogFileSource.LogFileSource.ReadBackwards | src/litestar_backend/src/admin/log/adapters/driven/log_file_source.py:117-124 | the chunk loop: the end of the region, with limit + 1 newlines or from byte 0 |
| LogFileSource.LogFileSource.TailFromBuffer | src/litestar_backend/src/admin/log/adapters/driven/log_file_source.py:130-143 | drops the partial line, keeps the last lines and locates the first kept |
| LogFileSource.LogFileSource.IterAllLines | src/litestar_backend/src/admin/log/adapters/driven/log_file_source.py:37-56 | exactly the newline-terminated lines in order, for every chunk size |
| LogFileSource.TailWindow | src/litestar_backend/src/admin/log/adapters/driven/log_file_source.py:117-125 | limit + 1 newlines of the end decide the page of the whole file |
| LogFileSource.LastPageOfLines | src/litestar_backend/src/admin/log/adapters/driven/log_file_source.py:136-143 | in terms of the lines alone: what a page holds and that it meets what precedes it byte for byte |
| LogLines.SplitUnique | src/litestar_backend/src/admin/log/adapters/driven/log_file_source.py:51 | split is the only way to write bytes as newline-free lines and a remainder |
| FileLogReader.FileLogReader.ReadTail | src/litestar_backend/src/admin/log/ports/driven/file_log_reader.py:22-25 | entries and cursor of the tail page; each line of the page that parses comes out once, in order |
| FileLogReader.FileLogReader.ReadBefore | src/litestar_backend/src/admin/log/ports/driven/file_log_reader.py:27-33 | one older page, each line of it that parses once and in order, or the unchanged cursor for another inode |
| FileLogReader.FileLogReader.Map | src/litestar_backend/src/admin/log/ports/driven/file_log_reader.py:46-54 | there is one entry per line that parses, in the order of the lines, and no other |
| FileLogReader.ParsingIsUnique | src/litestar_backend/src/admin/log/ports/driven/file_log_reader.py:46-54 | that determines the entries |
| FileLogReader.WalkCoversExactly | src/litestar_backend/src/admin/log/ports/driven/file_log_reader.py:22-33 | the tail read and any older reads return exactly the last lines of the file as it was at the tail read, each line that parses once and in order, while the file is appended to, missing or rotated |
| FileLogReader.FirstReadIs | src/litestar_backend/src/admin/log/ports/driven/file_log_reader.py:22-33 | how many lines these are: the tail limit, and a page for each read that found the file |
| FileLogReader.WalkEndsWhenAllRead | src/litestar_backend/src/admin/log/ports/driven/file_log_reader.py:27-33 | offset 0 exactly when every line was returned; until then each hit moves the cursor strictly back |
| LogFollow.LogFollower.Step | src/litestar_backend/src/admin/log/adapters/driven/log_file_source.py:68-88 | one round of the loop, rotation drain included, yields and updates what the specification says |
| LogFollow.FollowFromEndOfFile | src/litestar_backend/src/admin/log/adapters/driven/log_file_source.py:58-88 | between rotations the lines yielded are exactly the appended lines iff no poll completes a line whose beginning an earlier poll had read; then pos is the polled size at a newline |
| LogFollow.FollowExactly | src/litestar_backend/src/admin/log/adapters/driven/log_file_source.py:174-190 | the same from any state in step with the file |
| LogFollow.TornTailIsRepeated | src/litestar_backend/src/admin/log/adapters/driven/log_file_source.py:186-190 | a run on which an unterminated tail comes out doubled and then again |
| LogFollow.NothingDrained | src/litestar_backend/src/admin/log/adapters/driven/log_file_source.py:199-206 | the drain of a rotation yields nothing exactly when the path shows another file by then, or none, or nothing that completes a line beyond the position |
| LogFollow.DrainYieldsTheRest | src/litestar_backend/src/admin/log/adapters/driven/log_file_source.py:199-206 | of the same file it yields exactly the lines that end after the position |
| LogFollow.RotationRestartsAtZero | src/litestar_backend/src/admin/log/adapters/driven/log_file_source.py:75-82 | after a detected rotation of either kind (another inode, or a size below the position) the follower yields what the drain finds and then exactly the lines of the new file from byte 0, iff no torn tail is completed under it; then its position is the new file's |
| LogExport.ExportIsVerbatimIff | src/litestar_backend/src/admin/log/app/export_logs_uc.py:27-29 | the NDJSON export repeats the file up to its last newline exactly when every line is valid UTF-8 without a carriage return before its newline |
| LogExport.ExportOfValidFile | src/litestar_backend/src/admin/log/app/export_logs_uc.py:27-29 | for valid UTF-8 the only obstacle is a carriage return before a newline |
| LogExport.CarriageReturnIsLost | src/litestar_backend/src/admin/log/app/export_logs_uc.py:27-29 | the file "a", carriage return, newline is exported without its carriage return |
| LogExport.TextOfLine | src/litestar_backend/src/admin/log/adapters/driven/log_file_source.py:53 | a line is handed out as its decoded text without the carriage returns at its end |
| LineTruncation.FormatIsLongestFittingPrefix | src/litestar_backend/src/shared/logging.py:44-52 | the formatted line is the longest prefix of whole characters whose UTF-8 encoding fits the budget |
| Utf8.DecodeCut | src/litestar_backend/src/shared/logging.py:52 | decoding a cut encoding with errors ignored keeps exactly the characters that fit |
| Utf8.ReencodeIffValid | src/litestar_backend/src/admin/log/adapters/driven/log_file_source.py:53 | bytes survive decoding with replacement and encoding exactly when they are valid (section 3 of RFC 3629) |
| Utf8.EncodingExamples | src/litestar_backend/src/admin/log/adapters/driven/log_file_source.py:53 | the examples of section 7 of RFC 3629 |
| Utf8.SubpartExamples | src/litestar_backend/src/admin/log/adapters/driven/log_file_source.py:53 | ill-formed input: the subparts of table 3-8 of the Unicode Standard, overlong forms, surrogates and code points past the last |
| Utf8.SubpartIsReplaced | src/litestar_backend/src/admin/log/adapters/driven/log_file_source.py:53 | each of them becomes one U+FFFD, or nothing |
| CredentialRuns.OnePairEachIff | src/litestar_backend/src/auth/app/use_cases/refresh_tokens_uc.py:19-38 | with every await and clock read of every call a step of its own, over every run: each refresh token is exchanged for at most one pair exactly when no refresh of it answers between the denylist check and the answer of another, or before one that made its check after the token had expired |
| CredentialRuns.OneLeafIff | src/litestar_backend/src/auth/app/use_cases/refresh_tokens_uc.py:33-38 | exactly on those runs, of the refresh tokens that descend from one pair at most one is not exchanged yet |
| CredentialRuns.UndisturbedChains | src/litestar_backend/src/auth/app/use_cases/refresh_tokens_uc.py:33-38 | and then at most one of them works at any time |
| CredentialRuns.RevokedIsMissedIff | src/litestar_backend/src/auth/app/use_cases/revoke_token_uc.py:15-22 | over every run: a refresh answers, or a token resolves, after the token was revoked exactly when the revocation falls between the call's denylist check and its answer, or before a check made after the token had expired |
| CredentialRuns.NothingSignedLateIff | src/litestar_backend/src/auth/app/use_cases/login_user_uc.py:20-32 | over every run: no token is signed for a user after that user's deactivation exactly when no refresh and no login found the user active no later than the deactivation and signed after it |
| CredentialRuns.SignedAsCaused | src/litestar_backend/src/auth/ports/driven/jwt_service.py:22-34 | over every run: each pair is an access and a refresh token of one role and subject; those asked for, those of the user who logged in with the role of the user table, or those of the exchanged token |
| CredentialRuns.ResolvedAsSigned | src/litestar_backend/src/auth/ports/driven/jwt_token_resolver.py:14-25 | over every run: each principal has the role, id and subject of a signed access token |
| CredentialRuns.RolesAreRight | src/litestar_backend/src/auth/app/use_cases/login_user_uc.py:26-32 | over every run: every token of a user, and every principal who is one, has the role that the user table has for that user |
| CredentialRuns.DeactivationBoundUnlessStraddled | src/litestar_backend/src/auth/app/use_cases/refresh_tokens_uc.py:24-38 | on those runs, from the deactivation plus the access TTL on, no token verifies for the user or resolves to the user |
| CredentialRuns.DeactivationBound | src/litestar_backend/src/auth/app/use_cases/refresh_tokens_uc.py:24-38 | over every run: a user deactivated while no call that found the user active is under way gets no token from any later call, and none resolves from the access TTL later on |
| CredentialRuns.SpentForEver | src/litestar_backend/src/auth/app/use_cases/refresh_tokens_uc.py:22-38 | at every later instant of every run, a rotated or revoked token that is presented and checked at that instant neither resolves nor refreshes |
| CredentialRuns.CallsSpend | src/litestar_backend/src/auth/app/use_cases/revoke_token_uc.py:16-22 | over every run, every exchanged and every revoked token is spent, and an exchange signed a refresh token for the same user |
| CredentialRuns.StepKeepsInv | src/litestar_backend/src/auth/app/use_cases/refresh_tokens_uc.py:19-38 | every step of every refresh, login, revocation and authenticated request keeps the invariant that these results rest on |
| CredentialRuns.UninterruptedRefresh | src/litestar_backend/src/auth/app/use_cases/refresh_tokens_uc.py:18-38 | the steps of a refresh that nothing comes between are the call: denylist, clock and signed tokens |
| CredentialRuns.UninterruptedRefusal | src/litestar_backend/src/auth/app/use_cases/refresh_tokens_uc.py:19-31 | and those of one that may not refresh change nothing |
| CredentialRuns.RefreshIsTheCall | src/litestar_backend/src/auth/app/use_cases/refresh_tokens_uc.py:33-38 | that call changes denylist and signed tokens as the method's contract says |
| CredentialRuns.UninterruptedLogin | src/litestar_backend/src/auth/app/use_cases/login_user_uc.py:20-32 | the steps of a login that nothing comes between are the call, whose answer `Credentials.LoginIsForTheUser` gives |
| CredentialRuns.UninterruptedResolve | src/litestar_backend/src/auth/ports/driven/jwt_token_resolver.py:18-25 | an authenticated request that nothing comes between gets its principal exactly when the token resolves |
| CredentialRuns.UninterruptedRevocation | src/litestar_backend/src/auth/app/use_cases/revoke_token_uc.py:15-22 | the steps of a revocation that nothing comes between are the call |
| CredentialRuns.RacedTwice | src/litestar_backend/src/auth/app/use_cases/refresh_tokens_uc.py:22-38 | a run without failures on which two refreshes of one token both pass the denylist and both answer |
| CredentialRuns.ExpiredTwice | src/litestar_backend/src/auth/app/use_cases/refresh_tokens_uc.py:19-38 | a run without failures on which a token is exchanged a second time: verified just before it expires, checked when its denylist entry has expired, and not listed again for want of a positive TTL |
| CredentialRuns.LateLoginResolves | src/litestar_backend/src/auth/app/use_cases/login_user_uc.py:20-32 | a run without failures on which a login signs after the deactivation, and its token still resolves when the access TTL has passed since |
| Credentials.RoundedTtlCoversToken | src/litestar_backend/src/auth/app/use_cases/refresh_tokens_uc.py:33-37 | a token that verifies gets at least one second, and the entry lasts to its expiry or past it, by less than a second more than the write came late |
| Credentials.DeniesFor | src/litestar_backend/src/auth/ports/driven/valkey_denylist.py:17-29 | an entry denies its own token for its TTL and no other token |
| Credentials.ListedIsDeniedToExpiry | src/litestar_backend/src/auth/app/use_cases/refresh_tokens_uc.py:33-37 | a token listed before it expires is denied until it does |
| Credentials.PairIsAsAsked | src/litestar_backend/src/auth/ports/driven/jwt_service.py:22-34 | an issued pair: an access and a refresh token with the ids, role, subject, issuer and instant asked for, each to the whole second its own TTL ends in, and the access TTL |
| Credentials.PairWorks | src/litestar_backend/src/auth/ports/driven/jwt_service.py:36-60 | each token of a pair verifies exactly until it expires, for its own use or for a revocation, never for the use of the other |
| Credentials.ResolvesToItsToken | src/litestar_backend/src/auth/ports/driven/jwt_token_resolver.py:14-25 | a token resolves exactly while it is a signed, unexpired, unlisted access token of the issuer, and then to its own role, id and subject |
| Credentials.RefreshesWhen | src/litestar_backend/src/auth/app/use_cases/refresh_tokens_uc.py:19-31 | a refresh goes ahead exactly for a signed, unexpired, unlisted refresh token of the issuer, of no user or an active one |
| Credentials.LoginIsForTheUser | src/litestar_backend/src/auth/app/use_cases/login_user_uc.py:20-32 | a pair exactly for an active user with the right password, both tokens of that user and of the stored role; disabled signing is an error, all else is no pair |
| Credentials.RefreshTokensUC.Call | src/litestar_backend/src/auth/app/use_cases/refresh_tokens_uc.py:18-38 | every branch of a refresh, failing lookups included: denylist and answer; both tokens of the new pair have the role and subject of the exchanged refresh token |
| Credentials.RevokeTokenUC.Call | src/litestar_backend/src/auth/app/use_cases/revoke_token_uc.py:15-22 | denylists any verified token for its remaining life, and is silent on others |
| Credentials.ValkeyDenylist.Add | src/litestar_backend/src/auth/ports/driven/valkey_denylist.py:17-23 | a deadline for a positive TTL, nothing otherwise |
| Credentials.ValkeyDenylist.Contains | src/litestar_backend/src/auth/ports/driven/valkey_denylist.py:25-29 | alive until its deadline |
| Credentials.SqlUserRepo.SoftDelete | src/litestar_backend/src/auth/ports/driven/sql_user_repo.py:91-102 | deactivates an active user once and says whether it did |
| Credentials.SqlUserRepo.Register | src/litestar_backend/src/auth/ports/driven/sql_user_repo.py:26-52 | a fresh id becomes an active user with the role, and no other user changes: the registration step of the runs |
| Credentials.SqlUserRepo.IsActive | src/litestar_backend/src/auth/ports/driven/sql_user_repo.py:65-73 | active exactly while registered and not deleted |

## Left out

- HTTP controllers, middleware, dependency injection, CLI, metrics, health probes, logging calls and the
  `db_example_litestar` context: no hard state.
- Postgres, Valkey, SAQ, FastStream, the JWT codec, Argon2 and SHA-256 are taken by contract: atomic commits, row
  locks, sets and keys with expiry, append-only streams, atomic XAUTOCLAIM, unforgeable tokens, fresh unique ids and
  an injective hash of an injective encoding.
- Status events are modelled by type and video; their ids and timestamps, and the upload payload's source key and
  time, are carried by no decision.
- MediaProcessing.StepWithinRetries: does not model SAQ's own scheduling, so a job that dies with its worker is
  treated as a failed attempt.
- MediaProcessing.ServiceStepKeepsInv: join and inbox keys vanish at any moment instead of at their deadlines, which
  the store classes keep; every timed run is such a run.
- StatusConsumer.ConsumerStepKeepsInv: load, check and save of a Mark*UC are one step here; `SplitMarks` has them apart.
  XREADGROUP's block time and the idle threshold are any moment.
- Pipeline.EffectsHappenOnce: takes a mark as one step; `SplitMarks.SplitEffectsHappenOnce` is the same with loads and saves
  apart, and `SplitMarks.MarksIffUndisturbed` the exact condition.
- CredentialRuns.SpentForEver: speaks of a token presented and checked at one instant; a call that verifies a token and
  asks the denylist later is the subject of `CredentialRuns.RevokedIsMissedIff` and `CredentialRuns.OnePairEachIff`.
- CredentialRuns.NothingSignedLateIff: services, Valkey and Postgres share one monotone clock, and a deactivation is dated
  by its commit; the code reads `deleted_at` only to see whether it is null.
- Uploads.UploadsAreSpaced: the uploading service and the sweeper's database share one clock.
- Page limits, chunk sizes, batch sizes and TTLs are at least 1, as the configuration and the query parameters demand; with a
  limit of 0 the log readers' `[-limit:]` would keep everything.
- FileLogReader.FileLogReader.ReadBefore: no rotation happens between the inode check and the read.
- LogFollow.FollowFromEndOfFile: the file is only appended to between rotations; an undetected rewrite in place is
  not covered.
- LogFileSource.LogFileSource.IterAllLines: yields its lines as one sequence; the file does not change while it is held open.
- Deletion of the stream or its consumer group by others in the middle of a drain; a drain that finds no group is modelled.
- Credentials.SqlUserRepo.Register: e-mails, their uniqueness and the user_registered outbox row, which no credential decision
  here reads.
- A subject that is not a UUID, malformed claims and unknown roles: such tokens are never signed here.
- Failing reads of `list_page`, `find_credentials_by_email` and the token resolver, which raise and change nothing.
- Numbers inside JSON documents are opaque tokens, and `_restore` after `_snapshot` is taken as the identity.
- CSV export and cell defusing, cursor base64, the feed limiter, role guards, API keys, user listing (the same keyset page).
- Liveness that needs fair scheduling (eventual delivery, eventual DONE): stated as conservation and no-loss instead.
