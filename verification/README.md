# A verified model of document processing, retrieval and runs

This project models the parts of the system in which several processes or several passes have to agree, and proves what they keep.

* **Document processing.** `Protocol` is the state machine of the file table, the job table, the Redis stream with its pending list, the
  workers and the services; every repository call and every stream command is one atomic step, and any process may stop, or see a call
  fail, between two of them. `ProtocolSafety` proves what holds in every reachable state, `MidwayFiles` which files can be left midway,
  `StrandedParsing` exactly when parsing leaves one, `BlockedIndexing` which index jobs can no longer be finished by anybody;
  `ProtocolRuns` holds the concrete runs that end in such states. `FileLifecycle` and `HandlingLaws` write out, status by status and row by
  row, what a step, an undisturbed handling and an undisturbed service call leave in the tables and the stream.
  `DocumentProcessing` and `KnowledgeFiles` are the worker and the services as imperative code over shared tables: between any two calls an
  arbitrary number of actions of the other processes takes place, and each call is proved to be one step of the machine, so the theorems
  about runs are theorems about that code. `RedisDocumentQueue` (DocumentQueue.dfy) holds the wire format and the paged scan for stale entries,
  `StreamLaws` the fields and the selection, written out.
* **Markdown.** `Cleaner` has the five cleaning rules and their fence state machine, `HeadingTree` the heading tree, as a function and as
  nodes updated in place, `HierarchyWalk` the walk over it with its shared path slice, `Chunker` the line packer and the token window.
  `Text` holds the string functions they share. `CleanerLaws`, `HeadingLaws`, `HierarchyLaws` and `ChunkerLaws` say in terms of characters,
  lines and places which lines are code, artifacts and headings, what each rule keeps, and where each slice begins and ends.
* **Retrieval.** `Fusion` is reciprocal rank fusion with exact scores, `Hybrid` the reranker and the retriever around it, `Metrics` the
  evaluation metrics; `FusionLaws`, `HybridLaws` and `MetricsLaws` give their results in closed form.
* **Runs.** `RunQueue` is the request queue and the per-thread lock as a machine of Redis commands, `OrphanedLocks` and `RunCopies` are about
  locks nobody gives back and runs executed more than once, with concrete runs in `QueueRuns`, and `RunWorker` is the worker and the queue
  calls as code over the machine. `QueueLaws` writes out what each call and each worker leaves behind when nobody interferes.
* **Traces.** `TraceWriter` is the bounded queue with its drop counter, flushes and closing, `AsyncWriter` the code of its callers and its
  consumer, `TraceSpans` the stored spans that the writer and the janitor both try to end, and the once-only end of a span in memory.

`Optional` holds the one option type they share.

What nobody controls is a parameter: how calls end and what the other processes do are arbitrary functions of time, and so are the token
counter (zero on the empty string, monotone on prefixes, every single character fits), the time codec and the block builders. New file and
job ids are fresh.

## What the code does not promise

* A parse job that is reclaimed after its worker stopped in mid-parse fails with STATE_CONFLICT and leaves the file in `parsing`
  (internal/worker/document_worker.go:108-110). `ProtocolRuns` gives the run, `StrandedParsing` the exact condition under which a file is
  stranded, and `MidwayFiles` shows that it cannot recover once nobody is at work on it. The conflict path of an index job moves the
  file, so a file in `index_queued` or `indexing` always has an active job.
* That job can still be one nobody can finish. When the last transition has taken place but the job has not been marked, because its worker
  stopped there (internal/worker/document_worker.go:220-230) or because another job's left-over worker made the transition, every later
  handling meets two conflicts and leaves the message unacknowledged (internal/worker/document_worker.go:293-301), and no new index job is
  accepted for the file (internal/repository/document_processing_job_repository.go:107-118). `BlockedIndexing` proves that these are the
  only two ways into that state and that only removing the file, or failing or cancelling the job from a service, leads out of it; `ProtocolRuns` reaches
  it both ways, once without any failure.
* `sliceByTokens` stops when its window has reached the end of the paragraph, even if the last piece was cut back to a natural boundary
  (internal/rag/chunker.go:227-229); `Chunker` gives an input and the exact condition.
* Precision is zero divided by zero when nothing is retrieved although something was wanted. Recall stays within 1 for every gold list
  exactly when no non-empty id is repeated among the first ten; a repeated one lifts it above 1 for the gold list of that id alone
  (internal/service/evaluation_metrics.go:36-49).
* A queued run is lost when the process that holds its last copy drops it: the read of its hash fails after the pop, the worker's push back,
  existence check or deletion, or the caller's push or deletion, is not carried out, or the process stops (internal/run/worker.go:223-230). `RunQueue` proves that
  nothing else loses one, and gives such a run.
* A worker whose answer to SETNX is lost, whose release is not carried out, or which stops under the lock leaves its thread locked by nobody
  until the lock expires (internal/run/worker.go:241-256, internal/run/queue.go:251-266); `OrphanedLocks` proves that nothing else does.
* A run can be executed twice without any error: steering pushes it although LREM found it popped already (internal/run/queue.go:208-210),
  and a second worker that reads the hash before it is deleted executes it again if its row is still not final. `RunCopies` bounds the
  executions of a run by the number of times it was enqueued or steered like that.
* When the rerank call fails with a timeout or cancellation of its own, as an HTTP client timeout does, while the request is alive, the
  retriever returns no documents and no error instead of the fused list (internal/rag/hybrid_retriever.go:284-286). `Hybrid` proves that
  this is the only way in which a successful request loses documents.
* The comment on `Requeue` and the request queue speaks of the tail; the list is pushed and popped at the same end
  (internal/run/queue.go:118-126), so no order of runs is claimed.

## Model

| member | source | states |
|---|---|---|
| ProtocolSafety.AtMostOneActiveJob | internal/repository/document_processing_job_repository.go:104-143 | In every reachable state, stale workers and unguarded completions included, two active jobs of the same kb, file and job type are the same job. |
| ProtocolSafety.NoJobIsLost | internal/worker/document_worker.go:48-100 | In every reachable state an active job whose publish succeeded has a stream entry that is undelivered, or delivered and unacknowledged. |
| ProtocolSafety.AckedOnlyWhenFinished | internal/worker/document_worker.go:308-317 | A step that takes an entry off the pending list does so only when the job of that entry is finished. |
| ProtocolSafety.MarkdownAndAttempts | internal/worker/document_worker.go:74-79 | In every reachable state a file that is parsed, index_queued, indexing, indexed or index_failed has a Markdown path, no attempt exceeds the one allowed, and no task stands at MARKDOWN_MISSING or MAX_ATTEMPTS_EXCEEDED. |
| ProtocolSafety.IndexReadableStep | internal/service/knowledge_file_service.go:451-524 | A file for which an index job was ever created keeps a non-empty Markdown path, through every step. |
| ProtocolSafety.MarkdownStays | internal/repository/knowledge_file_repository.go:119-132 | No step empties a Markdown path, and a file row appears only under an id never issued before. |
| ProtocolSafety.NextTaskOk | internal/worker/document_worker.go:103-233 | After each of its own steps a task still carries the key and type of its job, is ready to acknowledge only when the job is finished, and holds a non-empty path before indexing. |
| ProtocolSafety.TaskOkPersists | internal/worker/document_worker.go:48-100 | What a task has read stays true under every step of every other process. |
| ProtocolSafety.PendingShrinks | internal/queue/document_queue.go:128-136 | An entry leaves the pending list only by the last step of a task that handles it. |
| Protocol.FinishedForever | internal/repository/document_processing_job_repository.go:93-101 | A job that is succeeded, failed or cancelled never becomes active again, in any continuation. |
| Protocol.StepEvolves | internal/repository/document_processing_job_repository.go:51-69 | No step of a worker or of a file or job service removes a job, changes its key, type or attempt limit, or reactivates it; the stream only grows. |
| MidwayFiles.IndexingIsNeverStuck | internal/worker/document_worker.go:160-233 | In every run without failed publishes and deletions a file in index_queued or indexing has an active index job, across crashes, concurrent reclaims and stale workers. |
| MidwayFiles.ParsingIsNeverStuckWithoutReclaim | internal/worker/document_worker.go:103-157 | In such runs without reclaim a file in parse_queued or parsing has an active parse job. |
| MidwayFiles.ParsingIsNotStuck | internal/worker/document_worker.go:103-111 | The same with reclaim, as long as no worker starts to parse a file that is already being parsed. |
| MidwayFiles.StrandsExactlyOnCollision | internal/worker/document_worker.go:103-111 | The exact condition: a task starting a parse job leaves its file midway without an active job, two steps later, if and only if the file was already in parsing and the job was still active. |
| MidwayFiles.AbandonedForEver | internal/worker/document_worker.go:278-290 | A file left in parsing with no active parse job and no task at work on one stays so in every continuation, and can be neither parsed again, indexed nor deleted. |
| StrandedParsing.ParsingStrandedExactly | internal/worker/document_worker.go:103-157 | The exact condition: in every run without failed publishes and deletions, reclaims and earlier collisions included, a file is in parse_queued or parsing without an active parse job at the end if and only if on the way a task marked that job while the file was still there, and no task moved the file on afterwards. |
| StrandedParsing.StrandsExactly | internal/worker/document_worker.go:270-275 | The same for one step: a file becomes stranded if and only if a task marks its active parse job while the file is still in parse_queued or parsing. |
| StrandedParsing.StaysStrandedExactly | internal/worker/document_worker.go:145-157 | A stranded file is moved on by a step if and only if that step is the last or the failure transition of a task still at work on it. |
| StrandedParsing.OnlyCollidersStrand | internal/worker/document_worker.go:103-111 | By its own step a task comes to stand before the marking of an active parse job, its file still held, if and only if it collides: it starts to parse a file that is already in parsing, and the job is active. |
| StrandedParsing.StranderHasCollided | internal/worker/document_worker.go:103-111 | In every such run the task that strands a file collided earlier in the run. |
| ProtocolRuns.ReclaimedParseIsAbandoned | internal/worker/document_worker.go:376-398 | A concrete run (worker stops in mid-parse, the message is reclaimed) that ends in such a state. |
| MidwayFiles.HeldArises | internal/repository/document_processing_job_repository.go:104-143 | A file becomes queued or worked on for a job type only by the creation of a job when none of that type was active. |
| MidwayFiles.OnlyTasksClose | internal/worker/document_worker.go:270-275 | While nothing is deleted and no publish fails, only the task of a job closes it. |
| MidwayFiles.EntersClosing | internal/worker/document_worker.go:278-305 | A task reaches MarkFailed or MarkSucceeded only after its file has been moved on, unless it collided. |
| MidwayFiles.OneHandStep | internal/worker/document_worker.go:48-100 | Without reclaim each entry is handled by one task, and its job is running from the moment its row is read. |
| MidwayFiles.ParsingStartedStep | internal/worker/document_worker.go:103-111 | Without reclaim a file in parsing belongs to an active delivered job none of whose tasks has yet to start. |
| BlockedIndexing.IndexingBlockedExactly | internal/worker/document_worker.go:160-233 | The exact condition: in runs without failed publishes and deletions an index job is blocked at the end (active, its file past index_queued and indexing, no task about to mark it) if and only if on the way the only task about to mark it stopped, or the left-over task of another job moved its file on. |
| BlockedIndexing.BlocksExactly | internal/worker/document_worker.go:220-230 | The same for one step: an active index job becomes blocked if and only if it is one of these two. |
| BlockedIndexing.StopBlocksExactly | internal/worker/document_worker.go:220-230 | In such runs a task that stops before marking an active index job blocks it if and only if no other task is about to mark it. |
| BlockedIndexing.BlockedUntilFreed | internal/worker/document_worker.go:293-301 | From any state that keeps the invariants of every run, a blocked job is blocked at the end of a continuation, failed publishes and deletions included, if and only if no step of it removed the file, took back the upload, failed the job after a refused publish, or cancelled it while pending. |
| BlockedIndexing.BlockedForEver | internal/repository/document_processing_job_repository.go:104-143 | Without failed publishes and deletions it stays blocked for ever, and no index job can be created for its file from whatever statuses. |
| BlockedIndexing.BlockedRefusesAll | internal/repository/document_processing_job_repository.go:104-143 | While a job is blocked, creation of an index job for its file is refused from whatever statuses, and no delivered entry of it has been acknowledged. |
| BlockedIndexing.EndsUnacknowledgedExactly | internal/worker/document_worker.go:165-171 | The start of an index job, nobody interfering, ends without acknowledgement and with nothing changed if and only if the file is neither index_queued nor indexing. |
| ProtocolRuns.StoppedIndexerBlocks | internal/worker/document_worker.go:220-230 | A concrete run: the worker moves the file to indexed and stops before MarkSucceeded; its job is blocked. |
| ProtocolRuns.OvertakenIndexerBlocks | internal/worker/document_worker.go:376-398 | A concrete run in which no process stops and no call fails: a slow indexer is reclaimed, its job fails on the conflict and is retried, and the slow indexer then moves the file on; the retried job is blocked. |
| FileLifecycle.TransitionExactly | internal/worker/document_worker.go:103-233 | A task's transition, status by status: parse_queued becomes parsing, parsing becomes parsed with the path given, parse_queued and parsing become parse_failed, and the same for indexing, the path kept; from any other status nothing changes and the task goes where its refusal sends it. |
| FileLifecycle.FailingLeavesFailed | internal/worker/document_worker.go:278-305 | Whenever a task goes from failing its file to failing its job, the file has turned from parse_queued or parsing into parse_failed, or from index_queued or indexing into index_failed, with the path it had; otherwise nothing has changed. |
| FileLifecycle.OnlyMovesChange | internal/repository/knowledge_file_repository.go:119-132 | A file row changes only by a task's transition, the creation of a job, or the restoring call after a refused publish, with the statuses before and after written out. |
| FileLifecycle.OnlyUploadEntersUploaded | internal/service/knowledge_file_service.go:84-103 | In every reachable state a file comes to stand in uploaded only by its upload. |
| FileLifecycle.UploadedExactly | internal/service/knowledge_file_service.go:105-146 | Over every run a file stands in uploaded if and only if no job was ever created for it. |
| FileLifecycle.AskingExactly | internal/service/knowledge_file_service.go:194-204 | The statuses from which a parse, an index and a deletion are accepted at first, written out, as if and only if. |
| FileLifecycle.ParseableExactly | internal/service/knowledge_file_service.go:397-426 | In every run without failed publishes and deletions a file without an active job can be parsed again if and only if some job was created for it and it is not stranded. |
| HandlingLaws.ParsedExactly | internal/worker/document_worker.go:103-157 | A parse job handled to its end, the message new or reclaimed: the file is parsed with the path given, the job succeeded with its attempt and worker, the message acknowledged, and no other row or entry changed. |
| HandlingLaws.ParseFailedExactly | internal/worker/document_worker.go:113-143 | One whose storage or parser fails: the file is in parse_failed with the path it had, the job failed with that code, and nothing else changed. |
| HandlingLaws.IndexedExactly | internal/worker/document_worker.go:160-233 | The same for an index job that goes well. |
| HandlingLaws.IndexFailedExactly | internal/worker/document_worker.go:177-213 | The same for one whose storage or indexer fails. |
| HandlingLaws.NotIndexableExactly | internal/worker/document_worker.go:160-175 | An index job without a model, or of a file without Markdown, leaves index_failed and its own code. |
| HandlingLaws.SpentExactly | internal/worker/document_worker.go:74-79 | A job whose attempts are used up fails with MAX_ATTEMPTS_EXCEEDED and its file is left alone. |
| HandlingLaws.FileGoneExactly | internal/worker/document_worker.go:81-90 | A job whose file is gone fails with FILE_NOT_FOUND. |
| HandlingLaws.ParseConflictExactly | internal/worker/document_worker.go:103-111 | A parse job whose file does not wait for it fails with STATE_CONFLICT and the file is left alone. |
| HandlingLaws.NotTakenExactly | internal/worker/document_worker.go:48-73 | The message of a missing or finished job is acknowledged, that of a job another worker has at hand stays pending, and no row is touched. |
| HandlingLaws.UploadExactly | internal/service/knowledge_file_service.go:84-146 | An undisturbed upload leaves a new file in parse_queued without Markdown, a pending parse job with one attempt allowed, and its message at the end of the stream. |
| HandlingLaws.UploadUndoneExactly | internal/service/knowledge_file_service.go:117-127 | An upload whose job could not be created leaves tables and stream as they were. |
| HandlingLaws.RetryParseExactly | internal/service/knowledge_file_service.go:397-437 | From parse_failed, parsed, index_failed or indexed, without an active parse job, an undisturbed RetryParse leaves the file in parse_queued, its path as it was, a pending parse job and its message. |
| HandlingLaws.IndexFileExactly | internal/service/knowledge_file_service.go:473-521 | The same for an index request from parsed, index_failed or indexed. |
| HandlingLaws.RetryExactly | internal/service/processing_job_service.go:57-116 | Retrying a failed job from the failed status of its type leaves the file queued for a new job of the same type and attempt limit. |
| HandlingLaws.UnpublishedExactly | internal/service/knowledge_file_service.go:428-435 | After a refused publish the job has failed with QUEUE_ENQUEUE_FAILED, the file stands in the failed status of its type, and the stream is as it was. |
| HandlingLaws.RefusedExactly | internal/service/knowledge_file_service.go:133-142 | A refused publish may have appended the message, and a compensating call that fails changes nothing and does not keep the next from being made. |
| HandlingLaws.NotCreatedExactly | internal/service/knowledge_file_service.go:115-127 | A job that cannot be created, or whose creation fails, ends the call with nothing changed; an upload goes on to take its row back. |
| HandlingLaws.DeleteExactly | internal/service/knowledge_file_service.go:194-227 | A deletion removes the row of the file alone; of a queued file exactly the pending jobs are cancelled first. |
| DocumentProcessing.FileRepository.TransitionStatus | internal/repository/knowledge_file_repository.go:119-132 | Compare and set in one statement, written out: the row takes the status, and the Markdown path if one is given, exactly when it exists in one of the given statuses; the result says so. |
| DocumentProcessing.FileRepository.Find | internal/repository/knowledge_file_repository.go:47-59 | A read of one row, nothing when there is none. |
| DocumentProcessing.FileRepository.Create | internal/repository/knowledge_file_repository.go:42-45 | An insert: one row in status uploaded without Markdown, the others as they were. |
| DocumentProcessing.FileRepository.Delete | internal/repository/knowledge_file_repository.go:100-112 | A delete: the table without the row. |
| DocumentProcessing.JobRepository.ClaimUpdate | internal/repository/document_processing_job_repository.go:51-69 | The guarded update: worker, status and attempt of one row change exactly when its status is one of the given ones. |
| DocumentProcessing.JobRepository.CreateForFileTransition | internal/repository/document_processing_job_repository.go:104-143 | The transaction as one step on both tables: created exactly when no pending or running job of the type is there and the file stands in one of the given statuses; then a pending row without attempts, and the file queued for its type. |
| DocumentProcessing.JobRepository.MarkSucceeded | internal/repository/document_processing_job_repository.go:93-96 | An update of one row without a guard on its status: finished and foreign jobs are overwritten too, which is why the invariants are proved under stale workers. |
| DocumentProcessing.JobRepository.MarkFailed | internal/repository/document_processing_job_repository.go:98-101 | The same for failure, with its code. |
| DocumentProcessing.JobRepository.CancelPendingByFile | internal/repository/document_processing_job_repository.go:161-167 | An update of exactly the pending jobs of the file; running ones are left. |
| DocumentProcessing.DocumentWorker.HandleMessage | internal/worker/document_worker.go:308-317 | Under any behaviour of the other processes the handling is a run of the protocol, abandoned only if a database or stream call failed; an acknowledged entry is off the pending list and its job is finished. |
| DocumentProcessing.DocumentWorker.ProcessMessage | internal/worker/document_worker.go:48-100 | Claim, read, checks and dispatch as steps of the protocol; true exactly when the task is ready to acknowledge. |
| DocumentProcessing.DocumentWorker.ProcessClaimed | internal/worker/document_worker.go:64-79 | Finished and missing jobs are acknowledged, jobs of another worker are left alone, exhausted ones fail. |
| DocumentProcessing.DocumentWorker.ProcessJob | internal/worker/document_worker.go:81-100 | A missing file fails the job; otherwise its type decides. |
| DocumentProcessing.DocumentWorker.ProcessParseJob | internal/worker/document_worker.go:103-111 | Its next action is the first transition of a parse job, or a call failed; a conflict fails the job without touching the file; acknowledged only when the job is finished. |
| DocumentProcessing.DocumentWorker.FinishParseJob | internal/worker/document_worker.go:113-143 | Its next action carries what storage, parser and storage answered (the first failure's code, or the path); after a failure the file moves to parse_failed before the job is marked. |
| DocumentProcessing.DocumentWorker.StartParsing | internal/worker/document_worker.go:103-111 | The compare-and-set into parsing is the next action; when it took place the file stands in parsing and the task is about to parse, on a conflict it is about to fail the job. |
| DocumentProcessing.DocumentWorker.MoveParseFailed | internal/worker/document_worker.go:278-290 | The transition into parse_failed is the next action; when it took place the file stands in parse_failed and the task is about to mark the job, and on a conflict the handling ends. |
| DocumentProcessing.DocumentWorker.ParseAndStore | internal/worker/document_worker.go:113-143 | The code of the first of the three external calls that fails, or the path of the stored object. |
| DocumentProcessing.DocumentWorker.ReadAndIndex | internal/worker/document_worker.go:177-213 | The code of the first of the two external calls that fails, or success. |
| DocumentProcessing.DocumentWorker.CompleteParseJob | internal/worker/document_worker.go:145-157 | The last transition of a parse job, with the Markdown path, then completion. |
| DocumentProcessing.DocumentWorker.ProcessIndexJob | internal/worker/document_worker.go:160-175 | Without an embedding model the next action is that failure, before any transition; with one it is the first transition, unless a call failed, and only then is the path checked. |
| DocumentProcessing.DocumentWorker.FinishIndexJob | internal/worker/document_worker.go:177-213 | Its next action carries what storage and indexer answered (the first failure's code, or success); after a failure the file moves to index_failed before the job is marked. |
| DocumentProcessing.DocumentWorker.StartIndexing | internal/worker/document_worker.go:165-175 | The compare-and-set into indexing is the next action; a conflict, then a missing path, decide where the task goes from there, and a task about to index has its file in indexing. |
| DocumentProcessing.DocumentWorker.MoveIndexFailed | internal/worker/document_worker.go:293-305 | The transition into index_failed is the next action; when it took place the file stands in index_failed and the task is about to mark the job, and on a conflict the handling ends. |
| DocumentProcessing.DocumentWorker.CompleteIndexJob | internal/worker/document_worker.go:221-233 | The last transition of an index job, then completion. |
| DocumentProcessing.DocumentWorker.FailJob | internal/worker/document_worker.go:270-275 | Marks the job failed; acknowledges unless the call fails. |
| DocumentProcessing.DocumentWorker.FailParseJob | internal/worker/document_worker.go:278-290 | The move of the file to parse_failed, whose resulting status its contract states, comes before the job is marked; a conflict ends the handling with an error and no acknowledgement. |
| DocumentProcessing.DocumentWorker.FailIndexJob | internal/worker/document_worker.go:293-305 | The same for index_failed. |
| DocumentProcessing.DocumentWorker.ConsumeNext | internal/worker/document_worker.go:346-373 | One round of the consuming loop is a run of the protocol that leaves no task behind: either everything has been delivered and the worker does nothing, or its next action takes a message that was not delivered before; an acknowledged entry is off the pending list and its job is finished. |
| DocumentProcessing.DocumentWorker.RecoverOne | internal/worker/document_worker.go:376-398 | The same for a reclaimed message: either the entry is not pending and the worker does nothing, or its next action claims it, with the same meaning of the acknowledgement. |
| DocumentProcessing.SettledIsFinished | internal/worker/document_worker.go:308-317 | Whoever is about to acknowledge has a finished job, whatever the other processes did in between. |
| DocumentProcessing.ClusterIsSafe | internal/worker/document_worker.go:48-100 | However code and other processes have brought the shared state about, one job per file and type is active and no published active job has lost its message. |
| DocumentProcessing.OthersLeaveMe | internal/worker/document_worker.go:321-373 | No action of another process changes where a process stands. |
| KnowledgeFiles.Services.UploadFile | internal/service/knowledge_file_service.go:84-146 | For each result the calls that were made: none, or row, job and publish, with both compensating calls after a refused publish and removal of the row when the job could not be created; an internal error or an unavailable queue means that a call failed or an id was taken; an enqueued result names a published parse job of the file. |
| KnowledgeFiles.Services.AddRow | internal/service/knowledge_file_service.go:84-103 | The row is there, with the upload about to create its job, unless the call failed or the id had been issued before. |
| KnowledgeFiles.Services.TakeBack | internal/service/knowledge_file_service.go:117-127 | The row of an upload whose job could not be created is removed, unless the call fails. |
| KnowledgeFiles.Services.RetryParse | internal/service/knowledge_file_service.go:397-437 | A conflict at once exactly when the row as read stands in uploaded, parse_queued, parsing, index_queued or indexing, and not found exactly when there is none, unless a call failed; from parse_failed, parsed, index_failed or indexed it ends enqueued or unavailable unless a call failed, an id was taken, or the file was moved or given an active job in between. |
| KnowledgeFiles.Services.IndexFiles | internal/service/knowledge_file_service.go:451-524 | Each requested file ends in exactly one of the two lists, in request order; each queued item names a published index job of its file, also after the later items; each rejected one was missing or not creatable in the state of its own call, unless a call had failed. |
| KnowledgeFiles.Services.IndexFile | internal/service/knowledge_file_service.go:473-521 | The same for one file of an index request, accepted from parsed, index_failed and indexed; an internal error means that a call failed or the job id was taken. |
| KnowledgeFiles.Services.Enqueue | internal/service/knowledge_file_service.go:413-437 | For each result the calls that were made: creation alone, creation and publish, or creation, refused publish and both compensating calls; internal and unavailable results mean a failed call (or a taken id), a conflict that the job could not be created. |
| KnowledgeFiles.Services.Create | internal/service/knowledge_file_service.go:413-426 | The creating transaction as the client's one action: created, refused because no job could be created, or failed because the call failed or the id was taken. |
| KnowledgeFiles.Services.PublishJob | internal/queue/document_queue.go:77-98 | A published job is recorded as published, with its file and type; a refused publish, possibly appended, is compensated before the call ends. |
| KnowledgeFiles.Services.Compensate | internal/service/knowledge_file_service.go:428-435 | Both compensating calls are made, in order, whatever becomes of either. |
| KnowledgeFiles.Services.Retry | internal/service/processing_job_service.go:57-116 | Refused at once exactly for missing jobs and jobs that have not failed, unless a call failed; a parse job is created again from parse_failed and an index job from index_failed, and from no other status, with its key, type and attempt limit. |
| KnowledgeFiles.Services.Delete | internal/service/knowledge_file_service.go:194-227 | Refused at once exactly for missing files and files in parsing or indexing, unless a call failed; for files in parse_queued or index_queued the pending jobs are cancelled first; a failing call is the last, and an undeleted file means a failed call. |
| KnowledgeFiles.Services.CancelAndRemove | internal/service/knowledge_file_service.go:205-227 | Cancelling when the file was queued, then the removal; it ends early only after a failed call. |
| KnowledgeFiles.QueuedStays | internal/service/knowledge_file_service.go:451-524 | A queued item stays published, with its file and type, in every continuation. |
| KnowledgeFiles.IndexingMovesOn | internal/worker/document_worker.go:160-233 | In the shared state of this code, without failed publishes and deletions, a file queued for or under indexing has an active job. |
| RedisDocumentQueue.PublishedIsRead | internal/queue/document_queue.go:203-225 | A message written by Publish is read back whole with its defaults filled in, and is never taken for poison. |
| RedisDocumentQueue.AtoiOfItoa | internal/queue/document_queue.go:213-216 | A written schema number is read back. |
| RedisDocumentQueue.DocumentQueue.Publish | internal/queue/document_queue.go:77-98 | Blank job ids are refused; otherwise a new entry with the completed message, or an error and no change. |
| RedisDocumentQueue.DocumentQueue.ClaimStale | internal/queue/document_queue.go:138-201 | Takes over exactly the first count entries that have been idle for long enough, whatever the list length and page size; argument errors and failed calls are reported and change nothing. |
| RedisDocumentQueue.DocumentQueue.SelectStale | internal/queue/document_queue.go:145-177 | The paged scan terminates and selects what a scan without pages would; it fails if and only if a page request does, with the first that does. |
| RedisDocumentQueue.SelectFromPage | internal/queue/document_queue.go:165-172 | The inner loop stops exactly at the count. |
| RedisDocumentQueue.PageIsNext | internal/queue/document_queue.go:151-177 | A page is the next stretch of the pending list, a short page is the last one, and the exclusive bound of the next request skips exactly it. |
| RedisDocumentQueue.FullPrefix | internal/queue/document_queue.go:165-172 | Once enough ids are selected the rest of the list adds nothing. |
| RedisDocumentQueue.StaleFacts | internal/queue/document_queue.go:165-172 | An id is selected exactly when it is pending and idle for long enough. |
| StreamLaws.FieldsExactly | internal/queue/document_queue.go:77-98 | The five fields of a published entry, by name and value, with the defaults for a missing time and a schema that is not positive. |
| StreamLaws.ParseExactly | internal/queue/document_queue.go:203-225 | An entry is read as a message, field by field, if and only if it names a job, its time can be read and its schema is a positive decimal number of 64 bits; otherwise it is poison with its id. |
| StreamLaws.NumberExactly | internal/queue/document_queue.go:213-216 | Which texts are read as which positive numbers. |
| StreamLaws.SelectedExactly | internal/queue/document_queue.go:150-177 | The ids selected are, in list order, those of the entries that are idle for long enough and have fewer than count such entries before them. |
| StreamLaws.ClaimExactly | internal/queue/document_queue.go:181-190 | Entry by entry: those selected belong to the consumer with no idle time, every other is as it was. |
| Cleaner.CleanIsIdempotent | internal/ingestion/cleaner.go:22-39 | Cleaning cleaned Markdown changes nothing, for every string. |
| Cleaner.CleanedShape | internal/ingestion/cleaner.go:22-39 | Outside code the result has no trailing blanks, no empty headings or image placeholders, no two adjacent blank lines and no blank first or last line; the non-blank code lines are those of the input, newlines normalised and control characters removed. |
| Cleaner.TrimOutcome | internal/ingestion/cleaner.go:55-65 | Trimming keeps every protected line verbatim and in order, and leaves no trailing blank elsewhere. |
| Cleaner.RemoveOutcome | internal/ingestion/cleaner.go:67-83 | After removal no artifact is left outside code, also in blocks that removal has widened. |
| Cleaner.RemoveKeepsCode | internal/ingestion/cleaner.go:67-83 | Removal keeps the non-blank protected lines in order, although blank lines may become protected. |
| Cleaner.RemoveDeletesOnlyArtifacts | internal/ingestion/cleaner.go:67-83 | Every line protected in the pass is kept, in order. |
| Cleaner.CollapseOutcome | internal/ingestion/cleaner.go:181-211 | Collapsing keeps every protected line and leaves no two adjacent blank lines outside code. |
| Cleaner.DropsExactlyOpenBlank | internal/ingestion/cleaner.go:207-209 | The final blank line is dropped exactly when it is not protected. |
| Cleaner.CollapseLinesOutcome | internal/ingestion/cleaner.go:181-211 | The whole rule, with no blank first or last line. |
| Cleaner.SafeCharsKept | internal/ingestion/cleaner.go:46-53 | Exactly the newlines, tabs and characters outside the control ranges, written out, are kept, in order, with their positions. |
| CleanerLaws.CleanedContent | internal/ingestion/cleaner.go:22-39 | The non-blank lines of the result are, in order, the non-blank lines of the document after newlines and control characters: those of code verbatim, the others without trailing blanks, and of these exactly the written-out empty shapes are missing. |
| CleanerLaws.PlaceholderExactly | internal/ingestion/cleaner.go:167-179 | An image placeholder is `![]`, or `![alt](url)` with nothing but white space for alt and url, and nothing else. |
| CleanerLaws.ImageIsPlaceholder | internal/ingestion/cleaner.go:171-178 | For every alt without a link of its own, the image of alt and url is a placeholder if and only if both are white space. |
| CleanerLaws.ArtifactExactly | internal/ingestion/cleaner.go:75-79 | Dropped outside code are exactly the lines that trim to #s and white space with at least one #, to such a placeholder, or to the image comment. |
| CleanerLaws.StateExactly | internal/ingestion/cleaner.go:94-119 | Where the scan is in a fence or behind an indented line, told by the lines alone: an opening line outside code, up to a line of the same mark, as long and nothing else. |
| CleanerLaws.CodeExactly | internal/ingestion/cleaner.go:94-119 | A line is protected if and only if it is in a fence or opens one, is indented, or is white space behind an indented line. |
| CleanerLaws.ClosesExactly | internal/ingestion/cleaner.go:132-149 | A closing line is up to three spaces, the mark of the opening line at least as often, and white space. |
| CleanerLaws.TrimExactly | internal/ingestion/cleaner.go:55-65 | Line by line: code as it is, every other line without the spaces and tabs at its end. |
| CleanerLaws.RemoveExactly | internal/ingestion/cleaner.go:67-83 | The lines left are, in order, those of code and those that are no written-out artifact. |
| CleanerLaws.CollapseExactly | internal/ingestion/cleaner.go:181-211 | The lines left are, in order, all but the blank ones outside code, and of these one empty line between two lines that stay and had any between them. |
| CleanerLaws.LineEndsExactly | internal/ingestion/cleaner.go:41-44 | Each of the three line ends becomes one newline, and text without carriage returns is left alone. |
| Cleaner.CodeBlockState.Contains | internal/ingestion/cleaner.go:94-119 | The fence state machine: whether the line is protected, and the next state. |
| Cleaner.CodeBlockState.IsClosingFence | internal/ingestion/cleaner.go:132-149 | Same character, at least as long, nothing else on the line. |
| Cleaner.TrimLines | internal/ingestion/cleaner.go:55-65 | The loop computes the trimmed lines in place. |
| Cleaner.RemoveArtifactLines | internal/ingestion/cleaner.go:67-83 | The loop computes the kept lines. |
| Cleaner.CollapseAll | internal/ingestion/cleaner.go:181-211 | The loop with its final cut computes the collapsed lines. |
| Cleaner.Clean | internal/ingestion/cleaner.go:22-39 | The five rules in order, without fallback; the result is a fixed point. |
| HeadingTree.PrintOfParse | internal/rag/hierarchy_chunker.go:83-120 | Printing heading, body, then children of the tree gives the lines back in order, heading white space normalised. |
| HeadingTree.ParsedItems | internal/rag/hierarchy_chunker.go:83-120 | The tree holds every line once, in order. |
| HeadingTree.ParseOfPrint | internal/rag/hierarchy_chunker.go:83-120 | Every well-formed tree is read back from its print. |
| HeadingTree.ReparseIsStable | internal/rag/hierarchy_chunker.go:83-120 | Reparsing the print of a document gives the same tree. |
| HeadingLaws.TreeItemsExactly | internal/rag/hierarchy_chunker.go:83-120 | Line by line: a line that opens a code fence, every line up to the one that is the bare marker, or to the end, and every line that is no heading is body text; any other line that trims to one to six #, a space and a title is a heading of that level and title. |
| HeadingLaws.ModeExactly | internal/rag/chunker.go:143-160 | The scan is in a fence if and only if an earlier line outside one starts with three backticks or tildes and no line since is that bare marker. |
| HeadingLaws.HeadingExactly | internal/rag/hierarchy_chunker.go:123-135 | Level and title are read off a line if and only if it trims to that many #, one to six, a space and the title. |
| HeadingTree.ParseIsWellFormed | internal/rag/hierarchy_chunker.go:83-120 | Every parsed tree is well formed: children lie deeper than their parent, and siblings do not deepen. |
| HeadingTree.StepAppends | internal/rag/hierarchy_chunker.go:86-88 | Body lines reach only the newest, still childless node, and every step appends one item to what the stack holds. |
| HeadingTree.StepKeepsShape | internal/rag/hierarchy_chunker.go:107-115 | Levels strictly increase along the stack. |
| HeadingTree.HeadingInfo | internal/rag/hierarchy_chunker.go:123-135 | Level and title of a heading line, or level 0. |
| HeadingTree.BuildHeadingTree | internal/rag/hierarchy_chunker.go:83-120 | The stack of references to nodes updated in place builds exactly the parsed tree. |
| HeadingTree.PushHeading | internal/rag/hierarchy_chunker.go:107-115 | Popping and linking a new node on the heap, in terms of the stack of open nodes. |
| HeadingTree.AddChild | internal/rag/hierarchy_chunker.go:107-115 | The new node becomes the open child of the top node, whose finished children stay. |
| HierarchyWalk.SectionsOfParse | internal/rag/hierarchy_chunker.go:56-74 | The sections of the tree are the stretches between headings in document order, each with the chain of nearest enclosing headings, defined on the heading sequence alone. |
| HierarchyLaws.SectionExactly | internal/rag/hierarchy_chunker.go:56-74 | Section k by the items of the document: its body is the lines between the k-th heading and the next, its titles those of the headings whose nearest heading above is the k-th, its path that of the k-th. |
| HierarchyLaws.PathExactly | internal/rag/hierarchy_chunker.go:107-115 | Each heading on a path is the nearest before it that lies above the level of the next, and nothing lies above the first. |
| HierarchyLaws.NoHeadingsExactly | internal/rag/hierarchy_chunker.go:48-52 | The general chunker takes over if and only if no line outside code is a heading. |
| HierarchyWalk.PathBelow | internal/rag/hierarchy_chunker.go:107-114 | Popping deeper nodes leaves the path of the nearest heading above the new level. |
| HierarchyWalk.PathDescends | internal/rag/hierarchy_chunker.go:57-63 | Levels strictly increase along a path, which ends in the section's own heading. |
| HierarchyWalk.PathReadsBack | internal/rag/hierarchy_chunker.go:138-144 | A path embedded in a chunk reads back as its headings. |
| HierarchyWalk.WalkFollowsDocument | internal/rag/hierarchy_chunker.go:56-74 | For every document the walk gives, section by section in document order, a parent block exactly when the section has subsections (and the block is not empty), then the section's content blocks. |
| HierarchyWalk.ChunksAreSections | internal/rag/hierarchy_chunker.go:56-74 | For every well-formed tree, below whatever path, the chunks are those of its sections in order. |
| HierarchyWalk.Walk | internal/rag/hierarchy_chunker.go:56-74 | Although siblings append to the same backing array, every node sees exactly the path that leads to it, and the caller's path is untouched. |
| HierarchyWalk.Append | internal/rag/hierarchy_chunker.go:59 | append in place while there is room, into a copy otherwise; the shared prefix never changes. |
| HierarchyWalk.Split | internal/rag/hierarchy_chunker.go:42-80 | Which documents are refused, which fall back, and the chunks otherwise. |
| Chunker.SplitByLines | internal/rag/chunker.go:180-200 | Joining the blocks gives the content back, multi-line blocks meet the bound, and no contiguous division meeting it has fewer blocks. |
| Chunker.GreedyStaysAhead | internal/rag/chunker.go:180-200 | The greedy division is never behind any other, also when that one has a head start. |
| Chunker.GreedyDivides | internal/rag/chunker.go:180-200 | The greedy blocks are contiguous and meet the bound. |
| ChunkerLaws.BlocksExactly | internal/rag/chunker.go:186-199 | Each block is one line or within the bound, and would exceed it with the first line of the next. |
| Chunker.ExtendIsLongest | internal/rag/chunker.go:187-194 | A block ends only where the next line would exceed the bound. |
| Chunker.FitToTokenWindow | internal/rag/chunker.go:291-307 | The result is the longest prefix that fits. |
| Chunker.LastNaturalBoundary | internal/rag/chunker.go:244-275 | The boundary furthest to the right, of whichever of the four classes. |
| Chunker.PlanFacts | internal/rag/chunker.go:205-238 | Slices start at strictly increasing offsets, fit the window, and none starts after the end of the one before. |
| Chunker.PlanReachesEndIff | internal/rag/chunker.go:227-229 | The last slice reaches the end of the paragraph if and only if the last window is kept whole. |
| Chunker.TailCanBeLost | internal/rag/chunker.go:220-229 | A concrete paragraph whose tail is lost. |
| Chunker.SliceByTokens | internal/rag/chunker.go:205-238 | Terminates for every input and returns the non-blank slices of the plan, each within the bound. |
| ChunkerLaws.PlanExactly | internal/rag/chunker.go:205-238 | Slice by slice: the window at the ratio of characters to tokens, cut to its longest prefix that fits, cut back to the last natural boundary if that is in its second half; the next slice starts as far before its end as the overlap says, and one more follows if and only if the window ended before the paragraph. |
| ChunkerLaws.NextExactly | internal/rag/chunker.go:231-236 | The next start, by the overlap in tokens at the ratio of the slice. |
| ChunkerLaws.KeptExactly | internal/rag/chunker.go:216-219 | The last boundary, character by character of the four classes, is where the slice ends if it is in the second half. |
| Chunker.TakeSlice | internal/rag/chunker.go:211-235 | One round of the loop: piece, window end and next start. |
| Chunker.NewChunker | internal/rag/chunker.go:19-30 | Any parameters give a usable configuration: 800 tokens for a size that is not positive, no overlap for a negative one, a quarter of the size for an overlap that reaches it, and sensible values as they are. |
| Chunker.WindowAtRatio | internal/rag/chunker.go:278-288 | The window is the largest whole number of characters that maxTokens tokens fill at the paragraph's ratio; three a token when there are no tokens or that is nothing. |
| Chunker.OverlapAtRatio | internal/rag/chunker.go:310-325 | The overlap is the largest whole number of characters that overlapTokens tokens fill at the sample's ratio; a quarter of the sample exactly when that reaches all of it, nothing without overlap, sample or tokens. |
| Fusion.FuseRRF | internal/rag/rrf.go:20-98 | The fused list: the unique ranking cut to the limit, each entry with its scores, the normalised one in (0,1], and its branches in the fixed order. |
| FusionLaws.FusedExactly | internal/rag/rrf.go:20-98 | What a fused document carries, by the lists alone: its first document, the sum of 1/(k+rank) over the lists that have it, that sum times (k+1) over the number of lists with chunks, which is 1 if and only if it comes first in all of these, the largest vector and keyword scores, and the branches of its documents. |
| FusionLaws.RankedExactly | internal/rag/rrf.go:78-89 | Of two results the earlier has the larger sum, or at equal sums stands in more lists, then has the better best rank, then the smaller id. |
| FusionLaws.FullScoreExactly | internal/rag/rrf.go:68 | The normalised score is 1 if and only if the chunk is first in every list that has chunks. |
| FusionLaws.ScoreExactly | internal/rag/rrf.go:48-50 | The closed form of the raw score and of the number of hits. |
| FusionLaws.BestExactly | internal/rag/rrf.go:51-53 | The best rank is the smallest at which a list has the chunk. |
| FusionLaws.CandidateExactly | internal/rag/rrf.go:36-54 | First document, branches and largest branch scores, by the first occurrence of the chunk in each list. |
| FusionLaws.LessExactly | internal/rag/rrf.go:88 | Ids compare at their first difference, a proper prefix being smaller. |
| Fusion.FusionIsDetermined | internal/rag/rrf.go:20-98 | Two results for the same lists are equal, branch names included, whatever order the maps are read in. |
| Fusion.BranchOrderIsUnique | internal/rag/rrf.go:167-181 | A set of branches has only one order: vector, keyword, then the others by name. |
| Fusion.OrderedBranches | internal/rag/rrf.go:167-181 | Puts the set of branches into that order, in whatever order it is read. |
| Fusion.EmitAll | internal/rag/rrf.go:60-98 | Each candidate becomes one entry, in place, with its raw and normalised scores and its ordered branches. |
| Fusion.RankingIsUnique | internal/rag/rrf.go:65-89 | There is only one ranking of the candidates, so every enumeration of the map gives the same list. |
| Fusion.BeforeIsStrictTotalOrder | internal/rag/rrf.go:78-89 | The four-key comparison is a strict total order on candidates with distinct ids. |
| Fusion.RankingIgnoresListOrder | internal/rag/rrf.go:26-89 | Permuting the input lists leaves the ranking unchanged. |
| Fusion.TallyOfPermuted | internal/rag/rrf.go:26-59 | Score, best rank and hits of a chunk do not depend on the order of the lists. |
| Fusion.NormalisedScoreInRange | internal/rag/rrf.go:68 | Each normalised score lies in (0,1], so clamping changes nothing. |
| Fusion.OutranksPrecedes | internal/rag/rrf.go:48-89 | A chunk that outranks another in every list where the other appears precedes it. |
| Fusion.SmallerLimitIsPrefix | internal/rag/rrf.go:90-92 | A smaller positive limit gives a prefix of the fused documents, with their scores and branches. |
| Fusion.ReadList | internal/rag/rrf.go:27-58 | One list is added to the candidates collected so far, first occurrence only. |
| Fusion.CollectAll | internal/rag/rrf.go:24-59 | All lists, with the number of active ones. |
| Fusion.EnumerateInAnyOrder | internal/rag/rrf.go:65-77 | Every candidate once, in whatever order. |
| Fusion.EffectiveK | internal/rag/rrf.go:21-23 | A constant that is not positive is replaced by 60. |
| Hybrid.Rerank | internal/rag/hybrid_retriever.go:48-101 | An applied rerank puts the model's documents first, first occurrence wins, then the others in fused order; unusable results fail. |
| Hybrid.RankedFirst | internal/rag/hybrid_retriever.go:74-89 | The first loop: documents the model ranked, unless a result is unusable. |
| Hybrid.ThenTheRest | internal/rag/hybrid_retriever.go:94-98 | The second loop: the documents it did not rank, in fused order. |
| Hybrid.NewOrderIsPermutation | internal/rag/hybrid_retriever.go:74-100 | The new order is a permutation of the input positions. |
| Hybrid.Retrieve | internal/rag/hybrid_retriever.go:189-298 | The result is a function of the request, the two branches' lists, the reranker's reply and the moment the context ends: the fusion of exactly the marked lists of the branches that answered, in the model's order when a rerank applied and in fused order otherwise, cut to the limit; cancelled exactly when the context ends before or during the branches or a failing rerank; a success without documents when the rerank fails with the client's own cancellation or deadline error under a live context; and each other refusal on its own condition. |
| HybridLaws.OutcomeExactly | internal/rag/hybrid_retriever.go:189-298 | Each of the five ways a request ends, as an if and only if over query, knowledge bases, answers of the branches and the model, and the life of the context. |
| HybridLaws.DocumentsExactly | internal/rag/hybrid_retriever.go:281-298 | Document by document: the model's first results in its order, with its scores, then the others in fused order, or the fused list when the model gave no usable answer. |
| HybridLaws.CountExactly | internal/rag/hybrid_retriever.go:267-298 | As many documents as the limit allows, or none after a cancelled or timed-out rerank call. |
| HybridLaws.FirstsExactly | internal/rag/hybrid_retriever.go:74-89 | Exactly the first result for each document counts, in the order of the reply. |
| HybridLaws.UnrankedExactly | internal/rag/hybrid_retriever.go:94-98 | The others are exactly the documents without a result, in ascending order. |
| Hybrid.DocumentsFacts | internal/rag/hybrid_retriever.go:257-298 | Unless the rerank fails with the client's own cancellation or deadline error under a live context, the documents have distinct ids, follow the fused ranking through a permutation, and are as many as the limit and the fused list allow; in that case there are none. |
| Hybrid.CompleteExactly | internal/rag/hybrid_retriever.go:281-298 | The exact condition: a successful request on a non-empty fused list returns as many documents as the limit and the list allow if and only if the rerank does not fail with the client's own cancellation or deadline error while the context is alive. |
| Hybrid.TimedOutRerankDropsAll | internal/rag/hybrid_retriever.go:284-286 | With such an error every non-empty fused list becomes a success without documents. |
| Hybrid.FinalOrderIsPermutation | internal/rag/hybrid_retriever.go:281-293 | Reranked or not, the final order is a permutation of the fused positions. |
| Hybrid.RearrangedFollows | internal/rag/hybrid_retriever.go:281-293 | The i-th final document is the fused one at the i-th place of that order. |
| Hybrid.FinalTopK | internal/rag/hybrid_retriever.go:267-280 | The least of the requested number if positive, else the configured one, the fused limit and 20; at least 1. |
| Hybrid.RerankOrKeep | internal/rag/hybrid_retriever.go:281-293 | Returns at once if and only if a rerank was called on a non-empty list and failed, and either the context had ended or the error was the client's own cancellation or deadline; the returned error is that of the context, so there is one only in the first case. Otherwise the model's order when it applied, and the fused order for a missing, failed, empty or unusable reply. |
| Hybrid.BranchLists | internal/rag/hybrid_retriever.go:257-265 | The lists that reach fusion, element by element: those of the vector branch and, unless empty, the keyword list, each document marked with its branch. |
| Hybrid.MarkRetrievalBranch | internal/rag/hybrid_retriever.go:300-314 | Each document is marked with exactly its branch, missing ones stay missing. |
| Hybrid.MarkingKeepsIds | internal/rag/hybrid_retriever.go:300-314 | Marking keeps what fusion ranks by. |
| Hybrid.WithStageOptions | internal/rag/hybrid_retriever.go:141-157 | A positive stage value of the request replaces the configured one, any other leaves it; the result is usable. |
| Hybrid.WithDefaults | internal/rag/hybrid_retriever.go:159-187 | 20, 20, 20, 5 and 60 replace the values that are not positive, one by one; the others are kept. |
| Metrics.Rearrangement | internal/service/evaluation_metrics.go:64-78 | No arrangement of the same hits gains more than hits first, and only hits first gains as much. |
| Metrics.MetricsBounds | internal/service/evaluation_metrics.go:18-80 | MAP is at most recall; NDCG is at most 1, with 1 exactly when there is a hit and the hits form a prefix; recall is at most 1 when no id in the window is repeated; precision is undefined exactly when nothing was retrieved although something was wanted. |
| Metrics.RecallBoundedExactly | internal/service/evaluation_metrics.go:36-49 | Recall is at most 1 for every gold list if and only if no id but the empty one is repeated among the first ten. |
| Metrics.RepeatedIdExceedsRecall | internal/service/evaluation_metrics.go:36-49 | Any id that is repeated there lifts recall above 1 for the gold list of that id alone. |
| Metrics.DistinctHits | internal/service/evaluation_metrics.go:36-44 | Distinct ids hit each wanted id at most once. |
| Metrics.ComputeRetrievalMetrics | internal/service/evaluation_metrics.go:18-80 | The loops compute the metrics as defined. |
| MetricsLaws.MetricsExactly | internal/service/evaluation_metrics.go:18-80 | The four numbers by the places of the hits: recall times the wanted ids and precision times the places looked at, at most ten, are the hits; MAP times the wanted ids is the sum of the precisions at the hits; NDCG times the first gains is the gains of the hits. |
| RunQueue.OneRunPerThread | internal/run/worker.go:222-281 | Without lock expiry at most one worker executes a run of a thread in any reachable state, with requeueing, steering, removal, failing commands and dying workers. |
| RunQueue.ExclusiveStep | internal/run/queue.go:251-266 | Every holder's lock is in place and holders of one thread are one, through every step but an expiry. |
| RunQueue.LockGoesOnlyByOwnRun | internal/run/queue.go:261-266 | Also with expiry, a lock in place goes if and only if it expires or a worker of its own run releases it. |
| RunQueue.OtherRunsNeverUnlock | internal/run/queue.go:261-266 | A run's lock survives any number of releases by other runs of the thread. |
| RunQueue.NoQueuedRunIsLost | internal/run/queue.go:140-142 | In every run of the machine, failing commands and dying processes included: every queued run is at every point in the list or in the hands of a process that will put it back or take it out of the hash, if and only if no step drops the last copy of one. |
| RunQueue.NoneLostStep | internal/run/queue.go:199-228 | The same for one step: a step that starts without lost runs leaves some run lost if and only if it loses one. |
| RunQueue.StepLosesExactly | internal/run/worker.go:222-250 | The exact condition for one run and one step: it is lost if and only if the step is the failing read after the pop, the worker's push back, existence check or deletion not carried out, the caller's push or deletion not carried out, or the end of the process holding it, and there is no other copy. |
| RunQueue.PoppedRunCanBeLost | internal/run/worker.go:223-230 | A concrete run: enqueued, popped, and the read of its hash fails. |
| OrphanedLocks.LockOrphanedExactly | internal/run/worker.go:241-256 | The exact condition: as long as its lock does not expire, a thread is locked by nobody at the end of a run if and only if on the way the answer to SETNX was lost, a release was not carried out, or the holder stopped, and no other worker held the thread for the same run. |
| OrphanedLocks.OrphansExactly | internal/run/queue.go:251-266 | The same for one step, from any state, expiry included. |
| OrphanedLocks.OrphanStaysExactly | internal/run/queue.go:251-258 | A lock held by nobody stays, with its run, under every step but its expiry. |
| OrphanedLocks.OrphanBlocksThread | internal/run/queue.go:251-258 | Until it expires no worker comes to hold the thread, in any continuation. |
| QueueRuns.LostAnswerOrphans | internal/run/worker.go:241-246 | A concrete run: the answer to SETNX is lost, the run goes back into the list, and its own lock stays without a holder. |
| RunCopies.ExecutedAtMostAsOftenAsPut | internal/run/worker.go:222-281 | In every run of the machine, failures, dying processes and expiring locks included, a run is executed at most as often as it was enqueued or steered while LREM took nothing out of the list, the copies still around counted in. |
| RunCopies.CopiesConserved | internal/run/queue.go:199-228 | One step: the start of an execution uses up a copy, and only enqueueing and such steering make one. |
| RunCopies.LateExecutionsReadEarlier | internal/run/worker.go:222-281 | Once the hash is deleted, and unless the run is enqueued again, only workers that had read the hash before are at work on it. |
| QueueRuns.ExecutedTwice | internal/run/queue.go:199-213 | A concrete run without any error or expiry: a run enqueued once and steered after it had been popped is executed twice. |
| QueueLaws.EnqueueExactly | internal/run/queue.go:69-122 | Undisturbed, a run is put at the end of the list and its hash written, and nothing else changes. |
| QueueLaws.SteerExactly | internal/run/queue.go:199-213 | Undisturbed, it stands at the head of the list instead of its first place. |
| QueueLaws.RemoveExactly | internal/run/queue.go:216-228 | Undisturbed, neither list nor hash has it, and the other runs are as before. |
| QueueLaws.WithoutFirstExactly | internal/run/queue.go:208-210 | LREM with count 1 takes out the first occurrence and nothing else. |
| QueueLaws.WithoutExactly | internal/run/queue.go:221-225 | With count 0 it takes out every occurrence and keeps the rest in order. |
| QueueLaws.ExecutesExactly | internal/run/worker.go:222-270 | Undisturbed, a worker that takes the run at the end of the list comes to execute it under the lock of its thread, list and hash no longer having it. |
| QueueLaws.FinishesExactly | internal/run/worker.go:252-281 | Then the lock is given back and nothing else is left of the run. |
| QueueLaws.GoesBackExactly | internal/run/worker.go:232-250 | A run whose thread is paused or locked goes back to where it was. |
| QueueLaws.ErrorExactly | internal/run/worker.go:222-281 | Where a worker goes on after each command that ends in an error, whether or not it was carried out. |
| RunWorker.RequestQueue.Process | internal/run/worker.go:222-281 | Pop, pause check, lock, removal, execution and release form a run of the machine that leaves nothing in hand; without a failed command a run is skipped only when it is not queued and requeued only into the list; under the lock it is executed exactly when its row, as read then, can run. |
| RunWorker.RequestQueue.RunLocked | internal/run/worker.go:252-281 | Under the lock: removal, load, execution exactly when the row read at that time can run, and release in every case; the lock is no longer this run's unless a command failed. |
| RunWorker.RequestQueue.LockOrRequeue | internal/run/worker.go:232-250 | The worker gets the lock, or the run is back in the list, or a command failed. |
| RunWorker.RequestQueue.LoadRun | internal/run/worker.go:258-270 | The row as it is when read decides whether the run is executed. |
| RunWorker.RequestQueue.AcquireThreadLock | internal/run/queue.go:251-258 | Acquired means the lock is in place with this run; refused, that it is taken or the command failed. |
| RunWorker.RequestQueue.ReleaseThreadLock | internal/run/queue.go:261-266 | The compare-and-delete of the worker's own run; once released, the lock is not this run's, and it is unreleased only when the command failed. |
| RunWorker.RequestQueue.RemoveLocked | internal/run/queue.go:216-228 | Removal as the worker calls it, errors ignored; unless a command failed the run is no longer queued. |
| RunWorker.RequestQueue.Enqueue | internal/run/queue.go:69-122 | Hash first, with the thread, then list; a run without an id is refused, an enqueued one stands at the end of the list and its hash was written, and any other refusal means a failed command. |
| RunWorker.RequestQueue.Steer | internal/run/queue.go:199-213 | Only for queued runs; a steered run stands at the head of the list; refused only when it is not queued or a command failed. |
| RunWorker.RequestQueue.Remove | internal/run/queue.go:216-228 | Existence, list, hash, as three commands; found exactly when the removal was carried out; unless a command failed the run is not queued afterwards. |
| RunWorker.RequestQueue.Dequeue | internal/run/queue.go:125-137 | Takes the tail of the list; nothing only when the list is empty or the command failed. |
| RunWorker.RequestQueue.GetQueued | internal/run/queue.go:145-154 | The thread of a queued run, or nothing when it is not queued or the read failed. |
| RunWorker.RequestQueue.IsThreadPaused | internal/run/queue.go:269-276 | Paused exactly as the key says; an error counts as not paused. |
| RunWorker.RemoveFrom | internal/run/queue.go:209-225 | LREM with count 1 and 0. |
| RunWorker.ExecutesAlone | internal/run/worker.go:222-281 | In the shared state of this code no two workers execute runs of one thread while no lock has expired. |
| TraceWriter.EveryEventAccounted | internal/trace/writer.go:157-212 | Every offered event is processed, in hand, queued, waiting or counted as dropped, exactly one of these, and events are processed in the order of acceptance. |
| TraceWriter.FlushedMeansProcessed | internal/trace/writer.go:214-234 | When the consumer acknowledges a flush, everything accepted before it was requested has been processed. |
| TraceWriter.CloseProcessesAll | internal/trace/writer.go:237-248 | When the writer has finished, everything accepted before Close has been processed. |
| TraceWriter.MarkStays | internal/trace/writer.go:214-234 | What had been accepted at a flush stays accepted, in place. |
| AsyncWriter.Writer.Enqueue | internal/trace/writer.go:157-193 | A full channel drops and counts the event; a closed writer ignores it. |
| AsyncWriter.Writer.EndSpan | internal/trace/writer.go:196-212 | The event is in the channel or counted as dropped, never left waiting; a closed writer ignores it. |
| AsyncWriter.Writer.Flush | internal/trace/writer.go:214-234 | Requested exactly when the writer is open and fewer than 16 flushes wait; a reported acknowledgement means everything accepted before the call has been processed, whatever the other goroutines do. |
| AsyncWriter.Writer.Close | internal/trace/writer.go:237-248 | Sets the flag, once, and waits; when it reports that the consumer has finished, everything accepted before the call has been processed, unless the writer had already drained before. |
| AsyncWriter.Writer.Drain | internal/trace/writer.go:110-119 | Processes from the front until the channel is found empty; a panic ends the drain. |
| AsyncWriter.Writer.StopAndDrain | internal/trace/writer.go:91-94 | The stop branch: drain, then acknowledge all; only a panic sends it back to the loop. |
| AsyncWriter.Writer.ServeFlush | internal/trace/writer.go:97-99 | The flush branch: a served flush is acknowledged. |
| AsyncWriter.Writer.AckPendingFlushes | internal/trace/writer.go:122-131 | Every waiting flush is acknowledged. |
| AsyncWriter.Writer.RunOnce | internal/trace/writer.go:78-108 | One select: some branch is taken whenever one is ready, and the loop ends only when closed, drained and every flush acknowledged. |
| AsyncWriter.Writer.constructor | internal/trace/writer.go:61-75 | The default capacity is 2048. |
| TraceSpans.FirstEndingWins | internal/repository/trace_repository.go:586-599 | A stored span runs until the first operation that ends it, of the writer or of the janitor, and keeps what that operation wrote. |
| TraceSpans.EndedForEver | internal/repository/trace_repository.go:260-268 | A span that has ended is never changed again. |
| TraceSpans.DurationNotNegative | internal/repository/trace_repository.go:240-247 | An end time before the start gives a duration of zero. |
| TraceSpans.EndExactly | internal/repository/trace_repository.go:231-268 | Field by field what ending a span writes: only to a running span, the status and error type given, the end time given or now, the time since its start or zero, and the attributes of both ends merged. |
| TraceSpans.StartAndTimeoutExactly | internal/repository/trace_repository.go:586-599 | A start adds a row unless the id is known; the janitor turns exactly the running spans that started before the given time, field by field. |
| TraceSpans.SpanRepository.StartSpan | internal/repository/trace_repository.go:223-227 | A conflict leaves the stored span alone. |
| TraceSpans.SpanRepository.EndSpan | internal/repository/trace_repository.go:231-268 | The guarded update, or nothing for an unknown span. |
| TraceSpans.SpanRepository.MarkTimeoutSpans | internal/repository/trace_repository.go:586-599 | Exactly the overdue running spans time out, and their number is returned. |
| TraceSpans.Span.End | internal/trace/span.go:36-58 | Only the first call of a real span reaches the writer, with its defaults. |

## Left out

- Files: folders, the legacy status "ready", `UpdateProcessingResult`, `ClaimNext`, previews, downloads, listings and searches.
- Documents: the contents of objects, the parser, the indexer and the embedding models, which appear only as results of calls.
- DocumentProcessing.JobRepository.CreateForFileTransition: the count of active jobs and the compare-and-set of the file are taken to see one snapshot, which is stronger than read-committed isolation.
- Protocol.StepEvolves: deleting a whole knowledge base, which removes its file and job rows (internal/repository/knowledge_base_repository.go:82-95), is not among the steps.
- Protocol.FinishedForever: with such a deletion a job may be missing instead of finished.
- ProtocolSafety.AckedOnlyWhenFinished: with such a deletion an entry may be acknowledged because its job is missing.
- Jobs: unknown job types, processing parameters, time stamps and error texts.
- Lost answers: a publish may be refused although the message was appended, a Redis command may fail although it was carried out, and a worker's call that took effect although it failed is, in the machine, a step followed by the end of its task; the imperative code gives up only before a failed call has taken effect, and a failed creation of an upload's job is taken to have had none.
- Streams: trimming by maximum length, consumer groups other than one, and changes of the pending list during one paged scan.
- Time: how long a message must be idle before it is reclaimed is left open; any delivered entry may be reclaimed at any moment.
- `IndexPending`, which is `IndexFiles` on a listed set of files, and knowledge-base defaults for processing parameters.
- Stored objects: deleting them has no effect on the tables and is left out; a stored object is taken to have a non-empty path.
- RedisDocumentQueue.PublishedIsRead: the time codec of the Go library is a parameter with the hypothesis that this time survives it; strings are taken to survive Redis.
- Cleaner.Clean: strings are sequences of Unicode scalar values, so invalid UTF-8 does not occur.
- Chunker: assembling chunks from Markdown blocks (`Split`, `parseMDBlocks`, `mergeHeadingBlocks`), and a token bound on joined line blocks, whose newlines are not counted.
- HierarchyWalk.Walk: reads the tree as a value, since the walk changes no node; the texts of parent and body blocks are parameters.
- Fusion.FuseRRF: scores are exact reals, without rounding; metadata other than scores and branches is left out.
- Metrics.ComputeRetrievalMetrics: discounts are any positive strictly decreasing weights, and rounding to four digits is left out.
- Hybrid.Retrieve: a retriever built without one of its branches, which refuses every request; the lists of the two branches are parameters, present when the branch answered, and so is the moment the context ends; that the branches run in parallel, and spans and logs, are left out.
- RunQueue: the time to live of locks is an explicit expiry, that of hashes is left out; so are heartbeats, the cancel table and what executing a run does.
- AsyncWriter.Writer.Close: how long the caller waits is left open; the wait is one turn of the other goroutines, of any length.
- AsyncWriter.Writer.Drain: observed for a limited number of rounds, because producers may keep the channel filled for ever.
- TraceWriter: an enqueue call checks the closed flag and sends in one step, so events offered while Close is racing are left out.
- TraceSpans: output summaries, token counts and their sanitising.
- Configuration, prompts, authentication, the frontend and the other services.
