# A model of the analysis assistant, with proofs

The repository is a chat service that runs business analyses as background jobs.  An API
call stores a message, a queued task and its first events in one database transaction and
pushes the task to Redis.  Workers claim tasks, run an agent graph that ends in a validated
report or in a question to the user, and write status, events and results back.  Clients
follow a task through its numbered event log.

This project models that behaviour in Dafny and proves what its pieces promise together.

* **Lifecycle** (`TaskRecord`, `TaskService`, `TaskQueue`, `Numbering`, `Protocol`): each database
  transaction and each Redis command is one atomic step of a state machine with any number
  of callers and workers.  Errors before or after a command took effect, crashes between
  commands, lapsed markers, duplicate queue entries and stale `max()` reads are all actions,
  and so are the commands of websocket connections, which act on what their session holds.
  `Lifecycle`, `Conservation`, `Cancellation` and `Recovery` prove what every run keeps;
  `HeldStatusTrace`, `StaleExpiryTrace`, `LateFailureTrace` and `AbortedEnqueueTrace` (on
  `Scenes`) give runs that show why their conditions are there.
* **Report pipeline** (`Graph`, `Schema`, `References`, `Report`, `ReportModels`, `ReportValidator`,
  `RepairContract`, `ReportProofs`, `ReportPipeline`, `Attribution`, `FirstReport`): the node graph
  with its validate-and-rebuild cycle, the report schema, its cross-reference rules and the
  deterministic repair.
  `ReportModelsGood`, `StrictIsLawful` and `ValidatorProjects` show that what the theorems assume of
  schemas, coercions and validators is met.
* **Context** (`ContextSummary`, `Compression`): the budgeted summary and its repetition.
* **Client** (`ClientStore`, `EventReplay`, `ClientView`): the event reducers and the replay pages.
* **Data** (`Changes`, `Ranking`, `Pagination`, `Cursor`, `BoundedQuery`, `MonthComparison`).

Classes and methods with loops follow the code that works that way; each is tied by its
`ensures` to a function, and the lemmas are about that function.  Model calls, generated
SQL, rendered files and timers enter as arbitrary values (`Choice`, `Oracle`, `Surroundings`,
function parameters), so every statement holds for all of them.  Ids, times and message
numbers are unbounded naturals; metric values are exact reals.

Where the code falls short of what one would expect, the model follows the code:

* A websocket connection has one database session for all its commands
  (`backend/app/api/websocket.py:163`), whose commits expire nothing
  (`backend/app/core/database.py:31`), and keeps its latest task referenced (line 186); a locked
  read does not refresh what the session holds (`backend/app/repositories/task_repository.py:34`).
  So `cancel` and `submit_clarification` can act on a status that is not the row's: `queued`
  after an answer, `running` after a cancel, or any status that was loaded to resend a message
  and outlived the commit of the next one.  With one
  worker already, a task can then be cancelled or requeued under its executor, leave success, end
  twice, or be reported running when it is not (`HeldStatusTrace`).  The exact conditions are
  `AlwaysIff`, `OneWorkerRunningIff`, `StepFollowsAllowedIff`, `FitsKeptIff` and
  `CountersAreCounts`; `CurrentIsEnough` sums them up.
* With two or more workers, log and row can disagree and a task can be executed after it
  ended, in two more ways.  A recovery pass cancels a task that was claimed since the pass listed it
  (`TwoWorkersDisagree`).  Or the commit of an outcome raises although it took effect, the task
  is requeued and claimed again, and the first worker then records a failure
  (`TwoWorkersExecute`, `TwoWorkersDisagreeCalmly`).  `AlwaysIff` counts both among the causes.
* In the last way a cancel can be forgotten by a retry (`CancelForgotten`).
* An enqueue that dies between its marker and its push hides a queued task from recovery until
  the marker's TTL has passed again (`AbortedEnqueueMissed`).
* The row bound overwrites a LIMIT that is not an integer literal, and also
  `FETCH FIRST n ROWS ONLY`, whose count it does not look for (`OverlookedLimitsLost`); the exact
  condition is `FaithfulForAllDataIff`.  Under MySQL an EXPLAIN of the original statement comes
  first (`backend/app/data_agent/service.py:592`) and rejects a computed LIMIT, which MySQL does
  not have; under other dialects nothing does.
* In `create_from_message` only the commit is guarded against IntegrityError, while the first flush
  can raise it too (`backend/app/services/task_service.py:119`); either way nothing is added.

## Model

| member | source | states |
|---|---|---|
| `Lifecycle.AlwaysIff` | backend/app/agent/events.py:103-135 | any number of workers, callers and connections, any run, each task; each of four laws holds throughout the run exactly when none of its causes occurs. Log and row agree: nobody reports `running` for a row that is not. One executor, on a running or cancelled task: no late failure, no connection that requeues it under its executor. One executor, on a running task: neither of those, no expiry and no connection's cancel under the executor. Columns fit the status: no connection flags a queued row, or requeues a finished or flagged one |
| `Lifecycle.OneWorkerAgreement` | backend/app/workers/task_worker.py:77-192 | one worker process, any number of API callers and websocket connections: folding a task's event log in order gives exactly the stored status, in every state reached without a connection ending, requeueing or reporting the task by a status it wrongly held |
| `Lifecycle.CurrentIsEnough` | backend/app/api/websocket.py:138-155 | one worker process: none of these happens, and no connection takes a task out of a status that is not left so, as long as each of its commands finds the row in the status it holds |
| `Lifecycle.OneWorkerRunningIff` | backend/app/workers/task_worker.py:123-192 | one worker process, throughout any run: a task has one executor at a time and is `running` whenever it is executed, exactly when no connection ends or requeues it under its executor |
| `Lifecycle.AgreementUndisturbed` | backend/app/workers/task_worker.py:97-192 | any number of workers: a task's log and row agree, and it is `running` whenever it is executed, as long as no recovery pass, late failure or connection ends it under its executor and no connection reports it running when it is not |
| `Lifecycle.ReachablePhases` | backend/app/workers/task_worker.py:150-192 | every reachable state: an execution ends in waiting_input, success, a stop or a failure, and in nothing else |
| `Lifecycle.NoEarlyCancel` | backend/app/workers/task_worker.py:123-140 | the cancelled-before-claim branch of _process is dead for a task as long as its columns fit its status |
| `Lifecycle.StepEvents` | backend/app/agent/runtime.py:26-101 | each step of an executor appends exactly its event: started, finished or failed for the node it is in, the tool's start and end, the rebuild |
| `Lifecycle.OutcomeCommitted` | backend/app/workers/task_worker.py:150-192 | committing an outcome on a running task asks its question, records its failure code, or cancels it |
| `Lifecycle.NoSecondActive` | backend/app/services/task_service.py:86-93 | a message to a conversation with a queued or running task adds nothing |
| `Lifecycle.CreatesIff` | backend/app/services/task_service.py:66-158 | a message adds a task exactly when its conversation has neither a task for it nor an active one and its number is fresh; the task is queued with two events, other tasks stay, and an enqueue follows |
| `HeldStatusTrace.CancelledUnderExecutor` | backend/app/api/websocket.py:138-155 | one worker: some run ends with a cancelled task that the worker still executes, because a connection that answered its question cancels it by the status `queued` it still holds |
| `HeldStatusTrace.OneWorkerDisagrees` | backend/app/api/websocket.py:138-155 | one worker: some run ends with a log that says running and a row that says cancelled |
| `HeldStatusTrace.SuccessLeft` | backend/app/services/task_service.py:205-253 | one worker, if any report can be stored: in some run such a cancel takes the task from success to cancelled |
| `HeldStatusTrace.EndsTwice` | backend/app/services/task_service.py:205-253 | one worker: some run has more `done` events than entries into a terminal status, a REST cancel having been followed by such a one |
| `HeldStatusTrace.CancelTwiceDisagrees` | backend/app/services/task_service.py:228-241 | one worker: a cancel sent twice on a connection ends with a log that says running and a row that says cancelled |
| `HeldStatusTrace.RequeuedUnderExecutor` | backend/app/services/task_service.py:255-314 | one worker: some run ends with a queued task that the worker still executes, its question answered on two connections of which one still held `waiting_input` |
| `StaleExpiryTrace.TwoWorkersDisagree` | backend/app/workers/task_worker.py:99-114 | with two workers some run ends with a task whose log says running and whose row says cancelled: expiry does not recheck `waiting_input` |
| `LateFailureTrace.TwoWorkersExecute` | backend/app/workers/task_worker.py:150-192 | some run of two workers without any expiry ends with a failed task that worker 1 still executes: the error of a question's commit that took effect is recorded as a failure after the task was claimed again |
| `LateFailureTrace.TwoWorkersDisagreeCalmly` | backend/app/workers/task_worker.py:150-192 | by the same way, without any expiry, a run ends with a log that says running and a row that says failed |
| `AbortedEnqueueTrace.AbortedEnqueueMissed` | backend/app/workers/task_queue.py:15-31 | however long ago a task became queued: a run of one worker lists it in a recovery pass without failures and leaves it out of the ready list, because an enqueue died after its marker |
| `ClientView.ClientShowsRow` | frontend/src/stores/task.ts:83-134 | any number of workers: a client that started empty and received every event of a task, duplicated and replayed in any order without a gap, shows the stored status, in every run in which nobody reports the row running when it is not |
| `ClientView.OneWorkerClientShowsRow` | frontend/src/stores/task.ts:83-134 | one worker process: it does, unless a connection acts on a status it wrongly holds |
| `ClientView.ShowsRowIff` | frontend/src/stores/task.ts:83-134 | such a client shows the stored status exactly when log and row agree |
| `ClientView.QuestionIsShown` | frontend/src/stores/task.ts:83-134 | a running task that goes over to waiting_input with a question shows that question to every client that received all of its events |
| `Lifecycle.ReachableRows` | backend/app/services/task_service.py:362-438 | every reachable state: every failed row has an error_code, a task has at most one result, which validates and has files, `success` has it, client messages are unique, message numbers are 1..n |
| `Lifecycle.ResultsStable` | backend/app/agent/stage_five_result_service.py:27-58 | a stored result is the same after any later run: retries, cancellations and repeated persists do not change it |
| `Lifecycle.ClientMessageOnce` | backend/app/services/task_service.py:66-84 | a client message that has a task keeps that one task, and has exactly one message, through every later run, however often it is sent again |
| `Lifecycle.StepFollowsAllowedIff` | backend/app/services/task_service.py:25-32 | a step of any action leaves a task's status or moves it along ALLOWED_TRANSITIONS, exactly unless a connection takes it out of a status by one it wrongly holds |
| `Conservation.QueueEntriesConserved` | backend/app/services/task_service.py:374-390 | for any workers, duplicate queue entries and expired markers: entries into `queued` = claims + cancellations there + 1 if queued now; executor starts never exceed entries |
| `Conservation.CountersAreCounts` | backend/app/agent/events.py:68-101 | over any run, `done` events count the entries into terminal states plus the times a connection ended the task again when it was cancelled; retry_count the accepted retries plus report rebuilds |
| `Cancellation.CancelIsHonoured` | backend/app/agent/runtime.py:26-101 | once a cancel of a task with an executor has committed: no later check passes, at most one node body and six steps of that executor follow, and the task ends cancelled unless a step raised or the outcome was decided before; for any number of workers, if none fails the task late and no connection requeues it under its executor |
| `Cancellation.OneWorkerCancelIsHonoured` | backend/app/agent/runtime.py:26-101 | the same for one worker process, if no connection requeues the task under its executor |
| `LateFailureTrace.CancelForgotten` | backend/app/workers/task_worker.py:150-192 | why that condition: after a late failure and a retry, a check of the cancelled execution passes |
| `Recovery.LiveNotRenewed` | backend/app/workers/task_queue.py:15-24 | while a marker is live, no action of any caller or worker moves its time of expiry: SET NX refuses it |
| `Recovery.MarkerNotRenewed` | backend/app/workers/task_queue.py:15-31 | over any run through which it stays live, a marker keeps its time of expiry |
| `Recovery.MarkerLapses` | backend/app/workers/task_queue.py:15-31 | from any reachable state, and whatever happens, no marker is live throughout a wait of its TTL |
| `Recovery.NoQueuedTaskLost` | backend/app/workers/task_worker.py:97-121 | after such a wait, a recovery pass without failures leaves every queued task it lists in the ready list, handed to a worker, or about to be pushed by an enqueue that set its marker; other passes, resends and crashes elsewhere included, as long as no enqueue of the task fails between its marker and its push |
| `TaskRecord.StatusFollowsAllowedIff` | backend/app/services/task_service.py:221-227 | each of the six status writers follows ALLOWED_TRANSITIONS exactly unless a session that holds the task as queued or waiting meets a finished, or for an answer a running, row |
| `TaskRecord.CurrentActsPlainly` | backend/app/repositories/task_repository.py:34-48 | a session that holds what is stored cancels and answers exactly as one that loads the row under its lock |
| `TaskRecord.FitsKeptIff` | backend/app/services/task_service.py:391-428 | a transaction keeps finished_at, error_code and cancel_requested consistent with the status exactly unless a session flags a queued row, or requeues one that is finished or carries a cancel request it does not hold |
| `TaskRecord.SoundKept` | backend/app/services/task_service.py:391-428 | every transaction keeps the error of a failed row, the single valid result and the result of a successful one |
| `TaskRecord.DoneMarksEnd` | backend/app/services/task_service.py:451-467 | each transaction appends a `done` event exactly when the status becomes terminal or a session ends a cancelled task again |
| `TaskRecord.AgreementKeptIff` | backend/app/services/task_service.py:205-438 | each transaction keeps log and row in agreement exactly unless it reports `running` for a row that is not: the test under which _persist writes current_step |
| `TaskRecord.QuestionAskedIff` | backend/app/services/task_service.py:416-422 | a clarification_required event is appended exactly by an accepted transition to waiting_input with a non-empty question, and carries that question |
| `TaskRecord.ErrorRaisedIff` | backend/app/services/task_service.py:409-415 | an error event is appended exactly by a transition that ends the task with an error code, and carries the code of the row |
| `TaskRecord.ErrorCodeIs` | backend/app/services/task_service.py:403-405 | the code of a row is the given one, INTERNAL_ERROR for a failure without one, none after a retry or a transition to queued, and otherwise unchanged |
| `TaskRecord.ResultReadyIff` | backend/app/agent/stage_five_result_service.py:115-155 | result_ready is appended exactly when a result was added, after the start and the text of its message |
| `TaskRecord.StartedOnce` | backend/app/services/task_service.py:399-400 | started_at is set once, by the claim |
| `TaskRecord.FinishedOnceIff` | backend/app/services/task_service.py:401-402 | finished_at is the time of entry into the terminal status and stays, exactly unless a session ends a cancelled task again at another time |
| `TaskService.TaskRow.Transition` | backend/app/services/task_service.py:362-438 | the assignments and appended events of transition give exactly the specified row, the status event first and `done` last; refusal and the missing-result error change nothing |
| `TaskService.TaskRow.constructor` | backend/app/services/task_service.py:104-158 | a new task is queued with its message_start and task_status events |
| `TaskService.TaskRow.Cancel` | backend/app/services/task_service.py:205-253 | cancel of a row loaded under its lock gives the specified row: a running task keeps its status and gets the request, a queued or waiting one ends |
| `TaskService.LoadedTask.Cancel` | backend/app/services/task_service.py:205-253 | cancel in a session that has loaded the task before tests and assigns the held attributes, and stores those that changed |
| `TaskService.LoadedTask.SubmitClarification` | backend/app/services/task_service.py:255-307 | submit_clarification in such a session, likewise |
| `TaskService.LoadedTask.Commit` | backend/app/core/database.py:28-33 | flush and commit store exactly the columns that differ from the loaded ones, append the events, and leave the attributes in the session as they are |
| `TaskService.TaskRow.SubmitClarification` | backend/app/services/task_service.py:266-306 | submit_clarification of a row loaded under its lock gives the specified row, and refuses any status but waiting_input |
| `TaskService.TaskRow.Retry` | backend/app/services/task_service.py:316-360 | retry gives the specified row, and refuses any status but failed |
| `TaskService.TaskRow.EmitNode` | backend/app/agent/events.py:22-41 | a node event is appended always, current_step is written only while running |
| `TaskService.TaskRow.EmitTool` | backend/app/agent/events.py:43-66 | a tool event is appended and the row is left alone |
| `TaskService.TaskRow.ReportRetry` | backend/app/agent/events.py:68-101 | a report rebuild counts one retry and appends one running event |
| `TaskService.TaskRow.Persist` | backend/app/agent/stage_five_result_service.py:27-158 | persist adds one result, its files and three events, or nothing when a result exists |
| `TaskQueue.Queue.Enqueue` | backend/app/workers/task_queue.py:15-31 | enqueue is refused under a live marker; otherwise it sets the marker, clears the task from processing and pushes it |
| `TaskQueue.Queue.Reserve` | backend/app/workers/task_queue.py:33-39 | reserve moves the right end of ready to the left end of processing |
| `TaskQueue.Queue.Acknowledge` | backend/app/workers/task_queue.py:41-43 | acknowledge removes one entry from processing and frees the marker |
| `TaskQueue.Queue.Release` | backend/app/workers/task_queue.py:45-48 | release moves one entry back, and pushes nothing when there was none |
| `TaskQueue.ReleaseUndoesReserve` | backend/app/workers/task_queue.py:33-48 | release undoes reserve on both lists whatever duplicates they hold; acknowledging leaves processing as before the reserve |
| `Numbering.CommitsIffFresh` | backend/app/models/entities.py:149-153 | an insert with something to number commits exactly when no row of its key was added after its snapshot; otherwise the UNIQUE constraint aborts it |
| `Numbering.InsertKeepsContiguous` | backend/app/services/event_service.py:40-67 | no insert, however stale its maximum, breaks the numbering 1..n of any key |
| `Numbering.NumbersNeverGap` | backend/app/repositories/task_repository.py:135-163 | over every sequence of inserts with arbitrary snapshots the numbers of every key are 1..n without gap or repetition |
| `Numbering.Table.AppendMany` | backend/app/services/event_service.py:40-67 | append_many extends the table by consecutively numbered rows, or leaves it unchanged on a collision |
| `ReportProofs.RepairSound` | backend/app/services/report_validator.py:23-70 | for any payload, the repaired report validates if and only if its header parses and every required list kept an item: ids, references and the confirmed rules never fail it |
| `ReportProofs.RepairIdempotent` | backend/app/services/report_validator.py:23-70 | repairing a repaired report changes no list, for any payload and any errors |
| `ReportProofs.RepairNeverStrengthens` | backend/app/services/report_validator.py:115-158 | every repaired conclusion comes from one of the raw ones with the same id, is `confirmed` only if that was, and an in-range confidence does not rise |
| `ReportProofs.RepairedReferencesOk` | backend/app/schemas/report.py:151-173 | the repaired evidence and conclusions satisfy validate_references, whatever the payload |
| `ReportValidator.Repair` | backend/app/services/report_validator.py:23-70 | the assignments change the eight lists and the note of what was repaired, and nothing else; each list holds exactly the items its rule keeps |
| `RepairContract.RepairIsExact` | backend/app/services/report_validator.py:23-70 | said of the raw values alone: which values each repaired list keeps, in order, and what becomes of each conclusion by what the kept evidence says |
| `RepairContract.SoundConclusionKept` | backend/app/services/report_validator.py:115-158 | a raw conclusion with a new id that cites kept evidence, each piece once, is confirmed only on verified evidence without asking for verification, and parses to itself, is in the repaired list unchanged |
| `ReportValidator.RepairConclusions` | backend/app/services/report_validator.py:115-158 | each object with a new non-empty id comes to its rewriting if that parses; the list holds these in order and nothing else |
| `ReportValidator.RewriteConclusion` | backend/app/services/report_validator.py:127-153 | known citations stay, each once in first-citation order; status, confidence and flag change exactly when none is known (to_verify, at most 0.49) or a confirmed one cites unverified evidence or asks for verification (probable, at most 0.7); all else stays |
| `ReportValidator.UniqueValidatedItems` | backend/app/services/report_validator.py:99-112 | of the values that parse exactly the first of each non-empty identity is kept, dumped, in order |
| `ReportValidator.ValidatedItems` | backend/app/services/report_validator.py:86-96 | exactly the values that parse are kept, dumped, in order |
| `ReportModels.ReportModelsGood` | backend/app/schemas/report.py:7-136 | the item models have distinct fields, self-consistent defaults and the fields repair relies on |
| `Schema.ParseStable` | backend/app/schemas/report.py:7-136 | dumping a parsed value and parsing it again gives the same value, for every well-formed schema |
| `ReportPipeline.ValidateStable` | backend/app/services/report_validator.py:19-21 | a validated report validates to itself |
| `ReportPipeline.ValidatedIs` | backend/app/services/report_validator.py:19-21 | a validated report has its header fields and its lists as they parse |
| `ReportPipeline.ValidatorProjects` | backend/app/services/report_validator.py:19-70 | the report validator has the properties the lifecycle and graph theorems ask of a validator |
| `Graph.RunStops` | backend/app/agent/graph.py:65-89 | every graph run ends within 13 node executions; a second build is always a repair; what render_report receives validates to itself |
| `Graph.RankFalls` | backend/app/agent/graph.py:65-89 | the measure on stage and report_retry_count falls along every edge taken |
| `Graph.RunInOrder` | backend/app/agent/graph.py:65-89 | the exact sequence of nodes of every run: three when fields are missing; else the eight of the analysis in their order, one build that validates and is rendered, or a second one by repair, rendered when that validates |
| `Graph.RenderedIff` | backend/app/agent/nodes/validate_report.py:9-32 | from the first build on, a run renders exactly when the draft or its repair validates |
| `ReportPipeline.ReportRenderedIff` | backend/app/agent/nodes/build_report_ir.py:17-30 | with the report validator: a run renders exactly when the first draft validates, or its header parses and repair leaves every required list an item |
| `FirstReport.FirstDraftIff` | backend/app/schemas/report.py:151-173 | a first draft that carries the evidence and attribution built validates exactly when its header and lists parse: its ids, citations and confirmed conclusions never fail it |
| `Attribution.FirstReportReferencesOk` | backend/app/agent/nodes/determine_attribution.py:7-99 | for any results and quality reports, the evidence and attribution built satisfy validate_references at the first attempt, and there is a conclusion |
| `Attribution.PaddedInjective` | backend/app/agent/nodes/build_evidence.py:12-14 | zero-padded ids of different numbers differ, beyond 999 too |
| `Attribution.LargestDeclinesCited` | backend/app/agent/nodes/determine_attribution.py:32-57 | a declining value has no conclusion only when three that fell at least as far have one |
| `Attribution.BuildEvidence` | backend/app/agent/nodes/build_evidence.py:7-121 | the evidence is, in order, that of every comparison, of up to five items of each group of changes and of up to 20 risks, or else of up to five metrics; it is verified exactly when the first quality report of its file raises no doubt; numbered from ev_001 |
| `Attribution.DetermineAttribution` | backend/app/agent/nodes/determine_attribution.py:7-99 | the conclusions are, in order, on the first comparison, on the three largest falls and on the first five risks, with their levels, confidences and impacts, or else the one descriptive statement; numbered from c_001 |
| `Ranking.TopDominates` | backend/app/agent/nodes/determine_attribution.py:38-42 | the first n of a descending sort are items of the list, and nothing outside them has a larger key |
| `Ranking.SortStable` | backend/app/agent/nodes/determine_attribution.py:38-42 | things of equal key keep their order |
| `ContextSummary.SummaryBounded` | backend/app/services/context_summary_service.py:61-97 | a summary is no longer than the larger of 12000 and its fixed characters |
| `ContextSummary.SummaryFullIff` | backend/app/services/context_summary_service.py:61-97 | when the fixed characters fit, it has exactly 12000 characters if and only if every message overflows its share of what the previous summary leaves |
| `ContextSummary.SummaryLength` | backend/app/services/context_summary_service.py:61-97 | its length is the fixed characters plus the previous text plus what fits of each message |
| `ContextSummary.SharesSumToBudget` | backend/app/services/context_summary_service.py:87-95 | the shares sum to the remaining budget and differ by at most one |
| `ContextSummary.SummaryEndsWithMessages` | backend/app/services/context_summary_service.py:91-97 | its last lines are the covered messages, one each, in order, each beginning with its prefix |
| `ContextSummary.CompactMeetsBudget` | backend/app/services/context_summary_service.py:100-111 | compact_text has exactly min(length, max(budget, 0)) characters, leaves a fitting text alone and keeps both ends of a cut one |
| `ContextSummary.BuildFactualSummary` | backend/app/services/context_summary_service.py:61-97 | the summary is the previous text within its share, then a line for each message: the speaker's label, the number, and the trimmed content on one line, all of it when it fits its share and else cut around the marker |
| `ContextSummary.CompactText` | backend/app/services/context_summary_service.py:100-111 | the early returns of compact_text compute the specified text |
| `Compression.HistoryTiles` | backend/app/services/context_summary_service.py:20-58 | over every history of messages and compressions the intervals tile 1..k, versions count 1, 2, 3, ..., and each text is made of the previous text and its own messages |
| `Compression.CoveredOnce` | backend/app/services/context_summary_service.py:20-58 | each covered message is in exactly one summary |
| `Compression.CompressionRetainsNewest` | backend/app/services/context_summary_service.py:39-55 | a compression happens exactly when the uncovered messages reach the threshold in number or in characters and are more than `retain`, and covers all of them but the newest `retain` |
| `Compression.NewestLeft` | backend/app/services/context_summary_service.py:39-55 | after a compression exactly the newest `retain` messages are uncovered |
| `Compression.ContextIsUncoveredSuffix` | backend/app/agent/nodes/load_context.py:26-42 | load_context returns the newest of exactly the uncovered messages, oldest first |
| `Compression.Conversation.CompressIfNeeded` | backend/app/services/context_summary_service.py:20-58 | compress_if_needed stores the specified row or nothing |
| `Compression.Conversation.LoadContext` | backend/app/agent/nodes/load_context.py:19-74 | the loop builds the recent messages: number, role, the first 4000 characters, and whether they answer a question of the task |
| `ClientStore.DeliveryShowsLog` | frontend/src/stores/chat.ts:91-141 | for any delivery order without a gap, the store equals the log prefix applied once in order, and shows its status, step, question, error, result flag, message texts, the message being written and the last 50 timeline entries, each by its own fold over the log |
| `ClientStore.DeliveredIsInOrder` | frontend/src/stores/chat.ts:93-98 | dropping numbers at or below the highest seen makes duplicated and replayed delivery equal to in-order delivery |
| `ClientStore.Client.ApplyEvent` | frontend/src/stores/chat.ts:91-141 | applyEvent of both stores gives the specified store |
| `ClientStore.Client.ApplyToTask` | frontend/src/stores/task.ts:83-134 | the assignments of the task store, and its reset on another task, give the specified view |
| `ClientStore.Client.ApplyToChat` | frontend/src/stores/chat.ts:100-137 | message starts and deltas update or add the specified message |
| `ClientStore.OptimisticConfirmed` | frontend/src/stores/chat.ts:100-120 | the start of a message confirms the one shown before it was stored, found by its client message, and leaves the others |
| `ClientStore.Client.AppendTimeline` | frontend/src/stores/task.ts:136-139 | an entry already listed is not repeated; otherwise the last 50 remain |
| `EventReplay.ReadAll` | backend/app/services/event_service.py:69-87 | repeated list_owned calls with after_seq = last_event_seq read exactly the events after the first one asked for, for any page limit, and end |
| `EventReplay.ResumeIsContinue` | backend/app/services/event_service.py:69-87 | a page and the page after its last_event_seq together are the longer page |
| `ClientView.CatchUp` | backend/app/services/event_service.py:69-87 | a client that received some events without a gap, and then reads back all those after its highest number, has the store of the whole log applied once in order |
| `Changes.ChangesSumToTotals` | backend/app/agent/tools/pandas_analyze.py:443-487 | the changes of all values sum to the target month's total less the baseline month's |
| `Changes.SharesSumToOne` | backend/app/agent/tools/pandas_analyze.py:477-479 | the impact shares of all values sum to one when the total changed and are zero otherwise |
| `Changes.KeptDominate` | backend/app/agent/tools/pandas_analyze.py:480-481 | no value left out of the top 20 changed more than a kept one |
| `Changes.FewAllKept` | backend/app/agent/tools/pandas_analyze.py:480-481 | with at most 20 values none is left out |
| `Changes.GroupsPartition` | backend/app/agent/tools/pandas_analyze.py:451-461 | group sums over distinct covering names add up to the total of the rows |
| `Changes.StructureSharesSumToOne` | backend/app/agent/tools/pandas_analyze.py:509-540 | structure shares over the kept items sum to one when their total is not zero; kept values are their groups' sums and dominate the rest |
| `Changes.BuildDimensionChanges` | backend/app/agent/tools/pandas_analyze.py:421-506 | over the rows: every dimension has an output exactly when the target month and the month before, or a year before, have a row with a number; the total change, and each item's sums in those months, change, rate and share are those of the rows; at most 20 values, each once, largest change first, none left out changed more; other baselines report nothing |
| `Changes.BuildStructures` | backend/app/agent/tools/pandas_analyze.py:509-540 | over the rows: each dimension's values with their sums, at most 20, largest first, none left out larger, each with its share of what is listed |
| `Pagination.FollowCursor` | backend/app/services/conversation_service.py:93-112 | following the encoded next_cursor until it is null ends, is never refused, and visits every row exactly once, in order, for any page limit |
| `Pagination.ListPage` | backend/app/services/conversation_service.py:73-112 | an unreadable cursor is refused; otherwise one row more than the limit decides whether there is a next cursor, the encoded rank of the last item |
| `Pagination.CursorAsks` | backend/app/core/pagination.py:8-25 | a cursor that was handed out is accepted and asks for the rows past its rank; it is never the empty text that asks for the first page |
| `Pagination.FollowConversations` | backend/app/repositories/conversation_repository.py:26-54 | following the cursors visits exactly the user's conversations of the status asked for, or those not deleted, each once, newest first by updated_at and then by id |
| `Pagination.FollowMessages` | backend/app/services/conversation_service.py:122-180 | the same for the messages of one conversation: newest page first, each page oldest first; each is shown once, ascending in the end |
| `Pagination.PastIsRest` | backend/app/repositories/conversation_repository.py:41-53 | the rows past the k-th row's cursor, ordered, are exactly the rest of the ordered list |
| `Cursor.DecodeInvertsEncode` | backend/app/core/pagination.py:8-16 | URL-safe base64 decoding inverts encoding, for every byte sequence |
| `Cursor.ThreeBytesSpell` | backend/app/core/pagination.py:8-10 | three bytes are four digits of base 64 in the URL-safe alphabet, the first byte the highest (RFC 4648, sections 4 and 5) |
| `Cursor.TwoBytesSpell` | backend/app/core/pagination.py:8-10 | two bytes are three such digits, filled up with zero bits |
| `Cursor.PaddingRestored` | backend/app/core/pagination.py:15 | restoring the stripped padding gives back the encoding |
| `Cursor.DecodeInvertsEncodeCursor` | backend/app/core/pagination.py:8-25 | decode_cursor inverts encode_cursor, for objects; other values are refused |
| `BoundedQuery.BoundingPreserves` | backend/app/data_agent/service.py:746-754 | with no LIMIT or an integer one the bounded query answers with the original's first max_rows rows, truncated exactly when it had more |
| `BoundedQuery.FaithfulForAllDataIff` | backend/app/data_agent/service.py:746-754 | whatever the data, bounding is faithful exactly for a limit that is absent, an integer LIMIT, or more than max_rows |
| `BoundedQuery.OverlookedLimitIff` | backend/app/data_agent/service.py:746-754 | a computed LIMIT or a FETCH FIRST is answered faithfully exactly when it exceeds max_rows or cuts nothing off |
| `BoundedQuery.OverlookedLimitsLost` | backend/app/data_agent/service.py:746-754 | a concrete computed LIMIT and a concrete FETCH FIRST that bounding overwrites |
| `BoundedQuery.Execute` | backend/app/data_agent/service.py:580-615 | _execute returns the first max_rows rows of the original statement and whether it had more, unless its limit is overlooked and within max_rows; it refuses exactly when the scanned rows exceed their limit |
| `BoundedQuery.ExecuteWithRetry` | backend/app/data_agent/service.py:450-538 | an answer is given exactly when the first statement answers, or gives way (unintended, or a database error) and its replacement answers, or both give way and the template, valid and not just run, answers; it is that statement's answer, after exactly those executions; every other outcome tells its cause |
| `BoundedQuery.FailureMeans` | backend/app/data_agent/service.py:450-578 | a database failure follows a database error of the last statement run, a mismatch an unintended replacement without a template, and a refusal or the generator's error carry their own codes |
| `MonthComparison.WindowsAreMonths` | backend/app/data_agent/service.py:674-686 | the two windows are exactly the month and the one before and partition the WHERE range, December and January included |
| `MonthComparison.TemplateComparesMonths` | backend/app/data_agent/service.py:687-717 | a channel has a row exactly when it is known and sold in one of the two months; its conditional sums equal the separate sums of those months, and its rate is their change in percent to the nearest hundredth, absent exactly when the earlier month sums to zero |

## Left out

- Protocol: "at most one active task per conversation" is checked by create_from_message but not kept by retry and submit_clarification, so it is not claimed; neither is that a running task finishes, since a crashed worker leaves its task `running`.
- Protocol.Step: a connection may hold any task it has loaded, for as long as it is not rolled back; the code keeps the latest task and drops the others when it is done with them. The isolation level is left open: a command whose snapshot would make its event number collide is allowed to commit here, so each statement about all runs covers it.
- Recovery.NoQueuedTaskLost: an enqueue of the task that fails between its marker and its push is excluded, since with one the statement is false (AbortedEnqueueMissed); and the pass must not list more queued tasks than its limit.
- Cancellation.CancelIsHonoured: a stretch without database or Redis errors in that worker; with several workers, no late failure of that task, since with one it is false (CancelForgotten); and no connection that requeues it under its executor, which clears the request. Late cancel markers that land after a retry cleared them are actions of the protocol, but no guarantee is stated about them.
- TaskQueue.Queue.Enqueue: runs without interruption here; interruptions between its commands are in Protocol.
- Schema.ParseStable: Pydantic's scalar coercions and the finite-number validators are arbitrary functions under the laws of `Lawful`; numbers are exact reals.
- TaskRecord.FitsKeptIff: error_message texts, results' validation columns, logs of node runs and attachments are not modelled.
- Attribution.BuildEvidence: titles, descriptions, values, formulas and scopes, which no rule reads, are dropped.
- Attribution.DetermineAttribution: titles and descriptions of conclusions are dropped.
- Changes.BuildDimensionChanges: which of several values of equal change are kept is that of a stable sort; pandas leaves it open. Resolving the dimension columns and reading dates and numbers are not modelled.
- Changes.ChangesSumToTotals: floating-point rounding; sums are over exact reals.
- Compression.HistoryTiles: compressions of one conversation run one after another.
- Compression.Conversation.LoadContext: the other fields of the graph state that load_context copies from the task.
- ClientStore.DeliveryShowsLog: one task and a store that starts empty; history loaded beforehand is not modelled.
- ClientStore.Client.ApplyToTask: durations, summaries and error texts of events are dropped, and so is the load of the result that result_ready starts.
- Cursor.DecodeInvertsEncode: a text with characters outside the alphabet is refused here, while Python's decoder skips such characters; JSON text is an arbitrary faithful codec.
- Pagination.FollowCursor: the data set is fixed while it is paged through; ids and times are naturals, and how a list writes them into a cursor's JSON and reads them back is an arbitrary faithful codec.
- FirstReport.FirstDraftIff: the header and the fields no rule reads are arbitrary JSON; whether they parse is the condition.
- BoundedQuery.ExecuteWithRetry: parsing, the allowlist check and the intent check are arbitrary predicates; a timeout is one of the refusals that leave the loop, without its own type.
- BoundedQuery.Execute: the timeout and the column names; which limits sqlglot parses to which node is taken as given.
- MonthComparison.TemplateComparesMonths: the year and month are given; reading them from the question, the database's limited precision of the quotient before it is rounded, and the order of the rows are not modelled.
- Publishing of events to subscribers, which may drop them; sessions, tokens and ownership checks of users; conversation deletion.
- Report building beyond evidence and conclusions (key metrics, charts, next actions), rendering to HTML and Markdown, and the legacy stage-four result service.
- pandas parsing, date inference, trends, comparisons and the inventory and market scenarios, which are single formulas.
