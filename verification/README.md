# Lumen notebook: a verified model

Dafny models of the parts of the Lumen notebook system where correctness is hardest to see from the code,
with proofs about every run or every input.

| files | what they model |
|---|---|
| `RuntimeTable`, `RuntimeLifecycle*` | The runtime service. Threads run `ensure_user_runtime`, `request_stop` and `_provision` against one table and meet only in a compare-and-set on the `state` column and a partial unique index. Each database call and each provider call is one atomic step; any thread may take the next step, and calls may raise. |
| `NotebookRepository`, `NotebookService*`, `NotebookTheorems`, `NotebookOutcomes`, `NotebookInstances`, `Etag` | The notebook store: idempotent writes, optimistic concurrency, immutable revisions and content-addressed blobs that are published before the metadata. A transaction is one step; the calls around it interleave, fail and crash. |
| `KernelGuard*` | The gateway's table of reference-counted locks around kernel creation, as tasks that interleave at await points. |
| `Outputs`, `KernelMessages`, `OutputAgreement`, `MessageContents` | Output consolidation, the message machine of one cell execution, when the two agree, and what is handed over in terms of the messages' contents. |
| `NotebookHistory`, `NotebookEdits` | The editor's notebook model: edits, undo, redo, and the document parser and printer they rest on. |
| `NotebookNormalisation`, `NotebookReading` | The normaliser of notebook files, as a parser of any JSON value and a printer. |
| `CellIds` | Creation and validation of documents on the server. |
| `LspDocument` | The virtual document shown to a language server and its position mapping. |
| `ReplaceAll` | Finding all matches, and replacing those of the last search by descending offset. |
| `Common`, `Json` | Option, Result and JSON values. |

Code that changes state step by step has its own form here (classes and loops), proved equal to a function on
values; the lemmas are about those functions. The two protocols and the guard table are transition systems:
`Step` is one atomic step with the environment's choices as arguments, and `Exec` over a sequence of actions
ranges over every interleaving.

## Assumptions

- `provider.terminate` succeeds and is idempotent (runtime-service/app/providers/docker.py:106-118). Container
  ids, runtime ids, notebook ids and guard objects are new when they are generated. The cell ids generated for
  one document are valid, pairwise distinct and not used in it (`Generates`; `RepeatedIdReplaced` is an instance).
- Starting a thread does not raise (runtime-service/app/service.py:73); if it did, the id would stay in
  `_provisioning_ids`. A commit that raises has been rolled back, in both services.
- SHA-256 is injective, and decoding the canonical JSON of a document gives the document.
- The decrement of a guard's reference count is not cancelled.
- A match reported by a regular expression lies inside the text at or after `lastIndex`; the completeness of
  the search assumes that it is the leftmost one.
- `String()` of a string is the string. Numbers are never NaN.
- Inserting into the editor's cell list clamps the index and counts a negative one from the end. The list
  class is not part of this model.

## Where the code does not do what one would expect

The model follows the code in each of these, and a lemma says when it matters.

- `request_stop` need not end in STOPPED: the error handler of `_provision` may move a STOPPING row to FAILED
  first, and the stopper's last transition then raises (`StopEndsInFailed` is such a run, `StopOutcome` says
  exactly when). And when it answers with a STOPPED row, a container made for that runtime may still be alive, but
  only in the hands of its provisioning thread (`StopAchieves`; `StoppedWhileHeld` is a run).
- If a database call of `_provision`'s own error handler raises, the row may stay in PROVISIONING or STARTING with no
  thread to carry it on; otherwise that never happens (`NothingAbandoned`).
- The gateway records whatever JSON a creation was answered with. A falsy value (`{}`, `null`) is recorded but
  not reused, so two creations for one notebook are recorded without a DELETE in between
  (`FalsyKernelRecordedTwice`); a removal separates consecutive recordings exactly when the first one is
  truthy (`CreationsSeparatedExactly`). A truthy value that is not an object makes the next creation raise before the
  `try` that releases its guard: the lock of that notebook is then held for good (`NonObjectKernelBlocks`,
  `DeadBlocks`); without such an answer nobody dies (`NobodyDies`).
- The bookkeeping of a DELETE runs whatever the upstream answered, and stops at the first value of the user's
  runtime that is not an object (`SweptExactly`); what it was for may then be left behind
  (`DeleteLeavesBehind`).
- A replayed PUT names the notebook of the first request with its key, not the one in the URL: the scope of a
  key uses the path template and the request hash covers only the body (`SaveKeyIsSettled`;
  `ReplayNamesAnother` is a run).
- If-None-Match is compared as one string: a list, `*` or a weak tag is never matched, which costs a 304 that
  section 13.1.2 of RFC 9110 would allow but never gives a wrong one (`NotModifiedIsCurrent`).
- In Python `$` matches before a final newline, so the service's own check passes a cell id that ends in one,
  although its error message says otherwise; whether the document is accepted is then up to the official schema,
  which is a parameter here (`NewlineIdNotObjected`). A cell id with a newline, wherever it comes from, shifts
  every later line of the virtual document (`NewlineShifts`, `CountedExactly`).
- A label that is the empty string, `isNew: false` over metadata that say `is_new: true`, and a status other than
  the one in the metadata do not survive saving and loading: the printer writes a label or `is_new` only when it
  is truthy, never writes the status, and keeps what the metadata said (`LabelAndNewnessLost`; the exact conditions are
  in `CellSurvivesExactly` and `ReloadSurvivesExactly`).
- An `update_display_data` for an id displayed twice is applied to the last output with the id by the kernel
  adapter and to the first one by consolidation (`DisplayedTwiceThenUpdated`). The two agree exactly when no
  update arrives for an id that was pushed more than once (`AgreeExactlyWhenUnambiguous`).
- Changing a circuit cell to another type keeps the circuit mark in its metadata, so the document no longer
  survives being stored and parsed, and undo does not restore it (`CircuitChangedAway`). `EditKeepsExactly`
  says exactly which edits keep the round trip.
- Replace-all applies the matches of the last search to the cells as they are now, and an edit or an undo does
  not repeat the search. An edited source may be cut in the wrong places (`EditedSinceSearch`). A cell gets the
  substitution of its present matches if those are the spans filed under its id (`FiledIsPresent`), in
  particular when ids are distinct and its source is as it was searched (`UnchangedSinceSearch`); when the filed
  spans still lie inside an edited source, exactly when they leave the same gaps as its present matches
  (`EditedExactly`).
- If a cell with a match has been deleted since the search, replace-all fails there and leaves later cells as
  they are (`DeletedSinceSearch`).
- Replace-all files matches by cell id. With repeated ids the matches of one cell are its own exactly when no
  other cell with the id has a match (`GroupIsOwnExactly`); otherwise they corrupt the first cell with the id
  (`RepeatedIdCorrupts`).

## Model

| member | source | states |
|---|---|---|
| RuntimeTable.AllowedFrom | runtime-service/app/service.py:18-27 | The transition graph is acyclic, and no edge leads from an inactive state to an active one. |
| RuntimeTable.AllowedExactly | runtime-service/app/service.py:18-27 | The graph by its targets: a single way up to READY, from every active state to FAILED, from every active state but STOPPING to STOPPING, and from STOPPING or FAILED to STOPPED. |
| RuntimeTable.RuntimeRepository.Create | runtime-service/app/repository.py:42-44 | INSERT succeeds exactly when neither the primary key nor the user's slot in the partial unique index is taken, and otherwise changes nothing. |
| RuntimeTable.RuntimeRepository.FindActiveByUser | runtime-service/app/repository.py:56-60 | Finds a newest active row of the user, and nothing exactly when the user has none. |
| RuntimeTable.RuntimeRepository.Update | runtime-service/app/repository.py:62-83 | The guarded whole-row UPDATE: the new table, a missed compare-and-set, or the violated index, as the value specification says. |
| RuntimeTable.RuntimeService.MoveTo | runtime-service/app/service.py:163-187 | `transition` moves the table and the caller's record together, or neither. |
| RuntimeLifecycleRuns.ReachableInv | runtime-service/app/service.py:41-161 | The invariant of rows, containers, claims and threads holds after every interleaving of steps. |
| RuntimeLifecycleTheorems.ContainerAccounting | runtime-service/app/service.py:78-161 | Every container that is created and not terminated is the local ref of a live provisioning thread of the runtime it was created for, or is bound to that runtime's row in STARTING, READY or STOPPING. |
| RuntimeLifecycleTheorems.QuiescentContainers | runtime-service/app/service.py:62-161 | With no live thread the containers are exactly those of READY rows, and no id is left in `_provisioning_ids`. |
| RuntimeLifecycleInstances.RestsReady | runtime-service/app/service.py:62-161 | A run that ends at rest with a READY row and its live container. |
| RuntimeLifecycleTheorems.QuiescentOneContainerPerUser | runtime-service/app/service.py:78-161 | With no live thread two containers of one user are the same container. |
| RuntimeLifecycleTheorems.CreateAtMostOnce | runtime-service/app/service.py:114-122 | `provider.create` is called at most once per runtime id, in every run. |
| RuntimeLifecycleTheorems.ConnectionTarget | runtime-service/app/service.py:102-107 | The row of a READY runtime names a live container that was created for that very runtime. |
| RuntimeLifecycleTheorems.OneActivePerUser | runtime-service/app/service.py:41-60 | At most one active row per user, in every run. |
| RuntimeLifecycleTheorems.RowShape | runtime-service/app/service.py:41-161 | STARTING and READY rows have a provider ref, earlier ones have none, and active rows before STOPPING want to be running. |
| RuntimeLifecycleTheorems.TransitionsSound | runtime-service/app/service.py:163-187 | In every reachable state a transition moves its row or loses the compare-and-set: invalid transitions and index violations are never raised. |
| RuntimeLifecycleTheorems.NoLostUpdate | runtime-service/app/repository.py:62-83 | The whole-row UPDATE guarded by the state alone changes one row, and of that row only the transition's own columns: no other thread's write is discarded. |
| RuntimeLifecycleTheorems.RowsOnlyDescend | runtime-service/app/service.py:18-27 | Along a run rows stay, keep owner and bound container, and only go down the graph: after STOPPING never READY, after inactive never active. |
| RuntimeLifecycleTheorems.StopOutcome | runtime-service/app/service.py:92-100 | The last transition of a stop succeeds exactly while the row is still STOPPING; either way the row ends FAILED or STOPPED with no live container bound to it. |
| RuntimeLifecycleInstances.StopEndsInFailed | runtime-service/app/service.py:92-161 | A run in which a stop reaches its last transition with the row in FAILED, loses it, and leaves the row FAILED. |
| RuntimeLifecycleOutcomes.StopAchieves | runtime-service/app/service.py:78-100 | In every run: a stop that answers with a row answers with a runtime of its user that is STOPPED or FAILED (STOPPING without a provider); no container is bound to it, and one made for it that is alive is held by its provisioning thread. |
| RuntimeLifecycleInstances.StoppedWhileHeld | runtime-service/app/service.py:78-134 | A run in which a stop has answered with a STOPPED row while the provisioning thread still holds a live container of that runtime. |
| RuntimeLifecycleOutcomes.StopGivesUpExactly | runtime-service/app/service.py:78-100 | In every run: a stop ends without a row exactly when a call raises, it reads the table while its user has no active row, or it comes to its last transition after the row has left STOPPING. |
| RuntimeLifecycleOutcomes.UndisturbedStop | runtime-service/app/service.py:78-100 | In every reachable state: an undisturbed stop ends the active runtime of its user, terminates its container, changes nothing else and answers with that row. |
| RuntimeLifecycleOutcomes.EnsureAnswers | runtime-service/app/service.py:41-60 | In every run: an ensure answers with a runtime of its user that was active when it was found or created and is in the table, in that state or a later one. |
| RuntimeLifecycleOutcomes.EnsureStarts | runtime-service/app/service.py:45-74 | With a provider it does not answer with a REQUESTED runtime before its provisioning is under way, unless it lost the race to insert it. |
| RuntimeLifecycleOutcomes.EnsureGivesUpExactly | runtime-service/app/service.py:41-60 | It ends without a row exactly when a database call raises, or the row that kept it from inserting its own is no longer active when it looks. |
| RuntimeLifecycleOutcomes.RowsWereAskedFor | runtime-service/app/service.py:50-51 | In every run each row has the owner and the profile of some request. |
| RuntimeLifecycleProvisioning.UndisturbedEnsure | runtime-service/app/service.py:41-144 | In every reachable state: a user without an active runtime who asks for one gets a READY row, as asked for, with a live container of its own; nothing else changes. |
| RuntimeLifecycleProvisioning.NothingAbandoned | runtime-service/app/service.py:109-161 | In every run whose error handlers do not raise: a row in PROVISIONING or STARTING has a live thread working on it, so none is left in those states when no thread is live. |
| RuntimeLifecycleProvisioning.NoticesStop | runtime-service/app/service.py:122-134 | A provisioning thread that finds its row STOPPING terminates its container and marks the row STOPPED. |
| RuntimeLifecycleProvisioning.PollsExactly | runtime-service/app/service.py:135-145 | A poll gives up exactly when the call raises, the time is up or the container has stopped, goes on to READY exactly when it is ready, and otherwise waits. |
| RuntimeLifecycleProvisioning.StartFails | runtime-service/app/service.py:135-161 | A runtime whose poll gives up ends FAILED with the reason, and its container is gone. |
| RuntimeLifecycleProvisioning.CreateFails | runtime-service/app/service.py:121-161 | So does one whose container could not be created. |
| RuntimeLifecycleTheorems.LostMeansDropped | runtime-service/app/service.py:78-90 | The stop loop retries exactly when the row has dropped below the snapshot's rank. |
| RuntimeLifecycleTheorems.StopRetriesBounded | runtime-service/app/service.py:78-90 | A stop request loses at most four compare-and-sets per row of its user. |
| NotebookRepository.SqlNotebookRepository.ResolveIdempotency | notebook-service/app/repositories/sqlalchemy.py:406-438 | A reused key conflicts on another request hash and otherwise replays the recorded rows; nothing is written. |
| NotebookRepository.SqlNotebookRepository.CreateNotebook | notebook-service/app/repositories/sqlalchemy.py:156-232 | The create transaction: notebook, first revision and record together, or a replay, or nothing. |
| NotebookRepository.SqlNotebookRepository.SaveNotebook | notebook-service/app/repositories/sqlalchemy.py:260-402 | The save transaction: replay, not found, revision conflict, unchanged content or the next revision, with the rows each one writes. |
| NotebookRepository.LocalBlobStore.PutBlob | notebook-service/app/storage/local.py:39-78 | Publishes bytes under their own hash only, and keeps every blob that was there. |
| NotebookRepository.LocalBlobStore.GetBlob | notebook-service/app/storage/local.py:80-85 | Bytes that are found hash to the key they are found under; not found exactly when nothing is stored under it. |
| NotebookRepository.PublishedReadsBack | notebook-service/app/storage/local.py:39-85 | After any further publications every blob, old or new, is found under its own key, and every key holds only bytes that hash to it. |
| NotebookServiceProofs.ReachableInv | notebook-service/app/services/notebooks.py:90-337 | The invariant of rows, records, blobs and requests holds after every interleaving, failure and crash. |
| NotebookServiceProofs.RunGrows | notebook-service/app/repositories/sqlalchemy.py:440-461 | The durable state only grows: revisions, records, blobs and documents are immutable and heads only move up. |
| NotebookTheorems.ExactlyOnce | notebook-service/app/repositories/sqlalchemy.py:169-225 | In every run the success records that are not `unchanged` and the revision rows correspond one to one. |
| NotebookTheorems.HistoryShape | notebook-service/app/repositories/sqlalchemy.py:273-397 | A notebook's revisions are exactly 1 to its current one, the head repeats the last row, and neighbours differ in hash. |
| NotebookTheorems.BaseOfRevision | notebook-service/app/repositories/sqlalchemy.py:311-397 | Revision r + 1 was committed by a request whose base was r, and holds that request's document. |
| NotebookTheorems.CommittedStaysReadable | notebook-service/app/services/notebooks.py:109-128 | A committed revision stays readable, with the document saved as it, whatever happens later. |
| NotebookTheorems.NoInternalError | notebook-service/app/services/notebooks.py:373-405 | The missing-row, missing-blob, wrong-hash and undecodable branches are never reached. |
| NotebookTheorems.ReadsReturnSaved | notebook-service/app/services/notebooks.py:170-250 | A read that succeeds answers with the document saved as the revision it names, its hash and its ETag. |
| NotebookOutcomes.ReadAnsweredExactly | notebook-service/app/services/notebooks.py:170-250 | In every run the answer of a read is decided, exactly, by the rows at its answering step: not found without the notebook, no such revision without the row, unavailable when the call fails, and otherwise the revision. |
| NotebookOutcomes.CommittedIsFound | notebook-service/app/services/notebooks.py:210-250 | A revision committed before a read of it began is found, with the document saved as it unless the client holds it already; only a failing call can keep it from being read. |
| NotebookOutcomes.CurrentIsFound | notebook-service/app/services/notebooks.py:170-208 | A notebook that existed before a read of its head began is found, at a revision no older than its head then; only a failing call can keep it from being read. |
| NotebookOutcomes.EveryStepCounts | notebook-service/app/services/notebooks.py:90-337 | Each of its own steps brings an open request nearer to its answer; at most four are needed. |
| NotebookOutcomes.SaveAnsweredExactly | notebook-service/app/repositories/sqlalchemy.py:260-402 | The transaction of a save, in every reachable state: which of replay, reused key, missing notebook, conflict with the head it met, unchanged content and next revision it is answered, and the rows after it. |
| NotebookOutcomes.CreateCommits | notebook-service/app/services/notebooks.py:113-166 | The transaction of a create that is no replay: a notebook with the title and the document of the request and one revision, and the answer that says so. |
| NotebookOutcomes.WriteAnsweredWhere | notebook-service/app/services/notebooks.py:108-337 | A write is answered by its transaction, by the read of a replayed create, or by a failing call, which alone is answered as unavailable storage. |
| NotebookTheorems.CreateReplaysAgree | notebook-service/app/services/notebooks.py:130-166 | All creates that succeed with one key had the same request hash and got the same answer, content included. |
| NotebookTheorems.SaveReplaysAgree | notebook-service/app/services/notebooks.py:301-337 | All saves that succeed with one key had the same request hash and got the same answer. |
| NotebookTheorems.SaveKeyIsSettled | notebook-service/app/services/notebooks.py:291-313 | Once a save with a key has succeeded, the next transaction with it answers the recorded result or a conflict, exactly by the request hash, and changes nothing. |
| NotebookInstances.ReplayNamesAnother | notebook-service/app/services/notebooks.py:291-313 | A run in which a save of one notebook is answered with the revision of another that was saved with the same key and body. |
| NotebookTheorems.CreateKeyIsSettled | notebook-service/app/services/notebooks.py:130-150 | The same for a create, whose replay also reads back the recorded content. |
| NotebookTheorems.FailureWritesNothing | notebook-service/app/repositories/sqlalchemy.py:397-402 | A request that ends in a failure or dies has written no row and no record in any of its steps. |
| NotebookTheorems.HeadFollowed | notebook-service/app/services/notebooks.py:170-208 | A read that has seen its head answers from that head, whatever commits before it answers. |
| NotebookTheorems.NotModifiedIsCurrent | notebook-service/app/services/notebooks.py:183-195 | A 304 means that the content the client holds under that ETag is the document that was current when the head was read. |
| NotebookTheorems.NotModifiedRevision | notebook-service/app/services/notebooks.py:224-237 | A 304 for a past revision means that the content the client holds under that ETag is the document saved as the revision asked for. |
| Etag.EtagInjective | notebook-service/app/etags.py:5-6 | The ETag determines notebook and revision, although ids may contain `-r` and digits. |
| Etag.EtagSpelt | notebook-service/app/etags.py:5-6 | An ETag written out. |
| Etag.StripEtag | notebook-service/app/services/notebooks.py:346-350 | An ETag as it was sent survives the stripping of the request header, which takes Unicode whitespace. |
| KernelGuard.Gateway.TakeReference | runtime-gateway/app/main.py:39-45 | The task gets the table's guard for its key, or a new one put there, with one more reference. |
| KernelGuard.Gateway.DropReference | runtime-gateway/app/main.py:48-64 | One reference less, and the entry goes with the last one; the release path only if it is still this guard's. |
| KernelGuard.Gateway.ForgetKernel | runtime-gateway/app/main.py:220-225 | The DELETE loop removes what the sweep specification says, and raises exactly when a value of the user's runtime is not an object. |
| KernelGuard.SweptExactly | runtime-gateway/app/main.py:220-225 | A kernel is removed exactly when it has the id, belongs to the user's runtime and is reached before any value that is not an object. |
| KernelGuardProofs.DeleteRemoves | runtime-gateway/app/main.py:220-225 | As a step of a task that visits the whole map in any order: a kernel goes exactly when the loop reached it with that id, and no other changes. |
| KernelGuardProofs.DeleteRemovesAll | runtime-gateway/app/main.py:220-225 | When all values of the user's runtime are objects, exactly the kernels of that runtime with that id go: none remains, whatever the order. |
| KernelGuardProofs.DeleteLeavesBehind | runtime-gateway/app/main.py:220-225 | A run in which a DELETE stops at a recorded value that is not an object and leaves a matching kernel recorded. |
| KernelGuardProofs.ReachableInv | runtime-gateway/app/main.py:39-64 | The invariant of guards, locks, creations and log holds after every interleaving and cancellation. |
| KernelGuardProofs.ReferencesExact | runtime-gateway/app/main.py:39-64 | `references` is the number of tasks that hold or wait for the guard, and a guard with references is the table's entry for its key. |
| KernelGuardProofs.MutualExclusion | runtime-gateway/app/main.py:187-239 | At most one task per key is between acquiring the guard and releasing it. |
| KernelGuardProofs.NoGuardLeft | runtime-gateway/app/main.py:57-64 | When every task has finished, the table is empty and no lock is held. |
| KernelGuardProofs.CreationsSeparated | runtime-gateway/app/main.py:187-225 | Between a recorded kernel worth reusing and the next recording for its key, a DELETE removed it. |
| KernelGuardProofs.CreationsSeparatedExactly | runtime-gateway/app/main.py:187-225 | Between consecutive recordings for a key the first one's kernel was removed exactly when it was worth reusing. |
| KernelGuardProofs.ReusedExactlyWhenTruthy | runtime-gateway/app/main.py:186-195 | In every run: under the guard a task reuses a kernel exactly when the last event for its key is the recording of a truthy object, dies when it is that of another truthy value, and otherwise goes on to create one. |
| KernelGuardProofs.UndisturbedRecords | runtime-gateway/app/main.py:186-239 | An undisturbed creation records its kernel and leaves no entry and no reference behind. |
| KernelGuardOutcomes.CreationIsServed | runtime-gateway/app/main.py:39-56 | In every run: a creation that is never cancelled is done only after it held the guard of its key and either found a truthy object standing recorded or got its creation answered. |
| KernelGuardOutcomes.SecondWaitsAndReuses | runtime-gateway/app/main.py:186-239 | Of two creations for one key at once the second waits for the first and reuses its kernel: one kernel is recorded and no guard is left. |
| KernelGuardOutcomes.MovesExactlyUnlessBlocked | runtime-gateway/app/main.py:39-64 | In every reachable state a step that is not cancelled carries its task on, unless the task is finished, has died, or waits for a guard that another task is inside. |
| KernelGuardOutcomes.SomebodyMoves | runtime-gateway/app/main.py:39-64 | No deadlock: as long as nobody has died under a guard, some unfinished task can go on. |
| KernelGuardOutcomes.CancelledWaiterLeaves | runtime-gateway/app/main.py:46-54 | A waiting task that is cancelled gives its reference back, takes the entry away if it was the last, and changes nothing else. |
| KernelGuardOutcomes.FalsySpelt | runtime-gateway/app/main.py:188-189 | The JSON values that are falsy. |
| KernelGuardProofs.FalsyKernelRecordedTwice | runtime-gateway/app/main.py:188-208 | A falsy answer is recorded and not reused: a second creation is recorded without a DELETE. |
| KernelGuardProofs.NobodyDies | runtime-gateway/app/main.py:188-195 | No task dies holding a guard as long as no truthy value other than an object is recorded. |
| KernelGuardProofs.DeadBlocks | runtime-gateway/app/main.py:187-195 | After such a death nobody ever again gets past the guard for that key. |
| KernelGuardProofs.NonObjectKernelBlocks | runtime-gateway/app/main.py:187-208 | A run in which it happens. |
| Outputs.ConsolidateOutputs | frontend/packages/outputarea/src/model.svelte.ts:26-55 | The loop computes the fold of single additions. |
| Outputs.OutputAreaModel.Add | frontend/packages/outputarea/src/model.svelte.ts:80-82 | Adding an output to an area set from a list equals setting the area from the longer list. |
| Outputs.ConsolidateIncremental | frontend/packages/outputarea/src/model.svelte.ts:75-82 | Consolidating a consolidated list followed by more outputs equals consolidating everything at once. |
| Outputs.FixedExactlyWhenConsolidated | frontend/packages/outputarea/src/model.svelte.ts:15-25 | Consolidation leaves a list alone exactly when it has no update entry and no adjacent streams of one name; it is idempotent. |
| Outputs.TextConserved | frontend/packages/outputarea/src/model.svelte.ts:42-48 | The total text of each stream is conserved. |
| Outputs.DisplaysResolved | frontend/packages/outputarea/src/model.svelte.ts:29-39 | Under each display id the result shows what the raw list says: the first display, revised by every later update. |
| Outputs.DisplaysKept | frontend/packages/outputarea/src/model.svelte.ts:29-39 | Under each display id consolidation leaves the first output with it, with its kind, execution count and transient data; an update without a target becomes a plain display. |
| Outputs.OthersConserved | frontend/packages/outputarea/src/model.svelte.ts:26-55 | Errors and displays without an id are all kept, in order, as they came. |
| Outputs.TextOfParts | frontend/packages/outputarea/src/model.svelte.ts:7 | The text of a stream is its parts one after the other, or its one string. |
| KernelMessages.JupyterExecution.AddDisplay | frontend/packages/notebook/src/adapters/services/kernel.ts:83-98 | The display cases place an output as specified, and `displayIds` keeps indexing, for exactly the ids shown, the last output with the id. |
| KernelMessages.JupyterExecution.HandleEvent | frontend/packages/notebook/src/adapters/services/kernel.ts:55-115 | One event advances the execution as specified: the outputs are the accumulation of what was received since the last effective clear, deferred clears included. |
| KernelMessages.JupyterExecution.ReadDisplay | frontend/packages/notebook/src/adapters/services/kernel.ts:87-96 | The fields of a display message, one by one, make the specified output. |
| MessageContents.ReceivedExactly | frontend/packages/notebook/src/adapters/services/kernel.ts:61-115 | What has been received are the outputs of the messages that count, in order, and each shows its message's fields: name and text, or type, data, metadata, execution count and transient data, or the parts of an error. |
| MessageContents.HandedOverShows | frontend/packages/notebook/src/adapters/services/kernel.ts:60-115 | Every output that is handed over shows one of those messages. |
| MessageContents.PrintedExactly | frontend/packages/notebook/src/adapters/services/kernel.ts:78-81 | The text handed over under `stderr` is that of the stream messages that count whose name is `stderr`, in order; under `stdout` it is that of all others. |
| MessageContents.WindowExactly | frontend/packages/notebook/src/adapters/services/kernel.ts:69-77 | The outputs that count are all those from the last effective clear on. |
| MessageContents.WaitingExactly | frontend/packages/notebook/src/adapters/services/kernel.ts:69-106 | A clear waits exactly when one that asked to wait has come after the last output. |
| MessageContents.CountHandedOver | frontend/packages/notebook/src/adapters/services/kernel.ts:75-77 | The execution count handed over is the number in the last input or reply message that has one. |
| KernelMessages.AccumulateError | frontend/packages/notebook/src/adapters/services/kernel.ts:110 | The accumulated list holds an error exactly when one was received. |
| OutputAgreement.ErrorReplyShown | frontend/packages/notebook/src/adapters/services/kernel.ts:108-114 | After an error reply an error is shown, and no second one is added. |
| OutputAgreement.ResolvedExactly | frontend/packages/notebook/src/adapters/services/kernel.ts:55-114 | Before the timer fires the promise is resolved exactly when both the reply and the idle status have come, in either order. |
| OutputAgreement.TimedOutExactly | frontend/packages/notebook/src/adapters/services/kernel.ts:55-60 | The timer rejects the promise exactly when it fires before both have come. |
| OutputAgreement.SettledForGood | frontend/packages/notebook/src/adapters/services/kernel.ts:56-60 | A settled execution never changes again. |
| OutputAgreement.AgreeExactlyWhenUnambiguous | frontend/packages/notebook/src/adapters/services/kernel.ts:95-98 | The accumulated list and the raw outputs consolidate to the same streams, errors and displays exactly when no update arrives for an id pushed more than once. |
| OutputAgreement.PushedOnceIsUnambiguous | frontend/packages/notebook/src/adapters/services/kernel.ts:95-98 | In particular they agree when no id is pushed twice. |
| OutputAgreement.ResultShowsRaw | frontend/packages/notebook/src/adapters/services/kernel.ts:47-115 | The same for what a resolved execution hands over, against the raw outputs since the last effective clear. |
| OutputAgreement.DisplayedTwiceThenUpdated | frontend/packages/notebook/src/adapters/services/kernel.ts:97-98 | An id displayed twice and then updated: the two lists differ. |
| NotebookHistory.NotebookModel.Insert | frontend/packages/notebook/src/adapters/docregistry/model.ts:58-63 | Records the history and inserts a new cell at the clamped index. |
| NotebookHistory.NotebookModel.InsertValue | frontend/packages/notebook/src/adapters/docregistry/model.ts:120-123 | Records the history and inserts a copy of a cell under a new id. |
| NotebookHistory.NotebookModel.Delete | frontend/packages/notebook/src/adapters/docregistry/model.ts:65-71 | Removes the first cell with the id, or records nothing. |
| NotebookHistory.NotebookModel.Move | frontend/packages/notebook/src/adapters/docregistry/model.ts:73-79 | Moves the cell, or records nothing when it is unknown or the target out of range. |
| NotebookHistory.NotebookModel.SetSource | frontend/packages/notebook/src/adapters/docregistry/model.ts:173-183 | Updates the source, records nothing when it is equal, and fails for an unknown cell. |
| NotebookHistory.NotebookModel.SetOutputs | frontend/packages/notebook/src/adapters/docregistry/model.ts:173-183 | Updates the outputs, always recording. |
| NotebookHistory.NotebookModel.SetExecutionCount | frontend/packages/notebook/src/adapters/docregistry/model.ts:173-183 | Updates the count, recording only a change. |
| NotebookHistory.NotebookModel.ReplaceMetadata | frontend/packages/notebook/src/adapters/docregistry/model.ts:85-89 | Records the history and replaces the notebook's metadata. |
| NotebookHistory.NotebookModel.ChangeType | frontend/packages/notebook/src/adapters/docregistry/model.ts:125-134 | Replaces the cell by a new one of the type with the old id, source and metadata. |
| NotebookHistory.NotebookModel.FromJSON | frontend/packages/notebook/src/adapters/docregistry/model.ts:91-97 | Loads the parsed document and empties both stacks. |
| NotebookHistory.NotebookModel.Undo | frontend/packages/notebook/src/adapters/docregistry/model.ts:102-109 | Pops the undo stack, pushes the current document on the redo stack and parses the popped one. |
| NotebookHistory.NotebookModel.Redo | frontend/packages/notebook/src/adapters/docregistry/model.ts:111-118 | The converse. |
| NotebookEdits.InsertLands | frontend/packages/notebook/src/adapters/docregistry/model.ts:58-63 | An insertion puts a new cell of its kind where the index says, and leaves the others in their order. |
| NotebookEdits.InsertValueLands | frontend/packages/notebook/src/adapters/docregistry/model.ts:120-123 | So does the insertion of a copy, which has every field of the cell but the id. |
| NotebookEdits.DeleteTakesAway | frontend/packages/notebook/src/adapters/docregistry/model.ts:65-71 | A deletion takes away the first cell with the id and nothing else; it does nothing exactly when there is none. |
| NotebookEdits.MoveLands | frontend/packages/notebook/src/adapters/docregistry/model.ts:73-79 | A move takes the first cell with the id out and puts it at the target, with the others in their order; it does nothing exactly when there is no such cell or the target is out of range. |
| NotebookEdits.SourceIsSet | frontend/packages/notebook/src/adapters/docregistry/model.ts:173-183 | Setting a source changes that field of the first cell with the id; it does nothing exactly when there is none or the source is the same. |
| NotebookEdits.TypeIsChanged | frontend/packages/notebook/src/adapters/docregistry/model.ts:125-134 | Changing the type keeps id, source and metadata of the first cell with the id, and nothing else of it. |
| NotebookEdits.EditRecords | frontend/packages/notebook/src/adapters/docregistry/model.ts:190-195 | A recorded edit puts the stored form on the undo stack, which keeps the last hundred, and empties the redo stack. |
| NotebookHistory.CellRoundTrip | frontend/packages/nbformat/src/index.ts:29-40 | A cell survives storing, parsing and storing again exactly when it is well formed. |
| NotebookHistory.RoundTrip | frontend/packages/notebook/src/adapters/docregistry/model.ts:147-165 | A notebook's stored form survives parsing and storing exactly when the notebook is well formed. |
| NotebookEdits.ParsedExactly | frontend/packages/nbformat/src/index.ts:29-40 | What parsing makes of a cell, field by field. |
| NotebookEdits.ParsedSourceJoins | frontend/packages/nbformat/src/index.ts:26-34 | A source in parts is read from its front to its back. |
| NotebookEdits.StoredKeeps | frontend/packages/notebook/src/adapters/docregistry/model.ts:147-165 | A cell that is stored and parsed keeps id, source, attachments, metadata and circuit, and a code cell its count and outputs. |
| NotebookEdits.NotebookKeeps | frontend/packages/notebook/src/adapters/docregistry/model.ts:147-165 | And so does every cell of a notebook, which keeps its own fields. |
| NotebookHistory.ParsedWellFormed | frontend/packages/nbformat/src/index.ts:29-40 | A parsed document is well formed exactly when every cell marked as a circuit is a code cell. |
| NotebookHistory.EditKeepsExactly | frontend/packages/notebook/src/adapters/docregistry/model.ts:58-134 | A recorded edit keeps a well-formed notebook well formed exactly when it meets its guard. |
| NotebookHistory.StepRefines | frontend/packages/notebook/src/adapters/docregistry/model.ts:91-118 | On stable documents every command is a move of a zipper of documents. |
| NotebookHistory.SessionRefinesZipper | frontend/packages/notebook/src/adapters/docregistry/model.ts:91-195 | Any session of guarded commands is a run of the zipper and stays well formed. |
| NotebookHistory.UndoRestoresExactly | frontend/packages/notebook/src/adapters/docregistry/model.ts:102-109 | Undo after a recorded edit restores the stored form exactly when the notebook before the edit was well formed. |
| NotebookHistory.UndosThenRedos | frontend/packages/notebook/src/adapters/docregistry/model.ts:102-118 | n undos and n redos give back the stored form and both stacks. |
| NotebookHistory.HistoryBounded | frontend/packages/notebook/src/adapters/docregistry/model.ts:190-195 | The two stacks together never hold more than 100 documents, after any commands on any document. |
| NotebookHistory.CircuitChangedAway | frontend/packages/notebook/src/adapters/docregistry/model.ts:125-134 | After a circuit cell is changed to another type, undoing the next edit does not restore the document. |
| NotebookNormalisation.NormalizeOutput | frontend/src/lib/notebookModel.ts:46-73 | The branches of the loop body, field by field, compute the output of the specification, or none. |
| NotebookNormalisation.NormalizeOutputs | frontend/src/lib/notebookModel.ts:43-75 | The loop over the outputs computes the specification: items that are not known outputs are skipped. |
| NotebookNormalisation.NormalizeCell | frontend/src/lib/notebookModel.ts:97-139 | The field-by-field construction computes the cell of the specification. |
| NotebookReading.CellReadExactly | frontend/src/lib/notebookModel.ts:97-139 | What a first reading makes of any cell value, field by field: the source in order, the legacy type, count and output, and own fields before those of `lumen`. |
| NotebookReading.SourceJoins | frontend/src/lib/notebookModel.ts:22-25 | A source list is read from its front to its back. |
| NotebookReading.StreamJoins | frontend/src/lib/notebookModel.ts:48-53 | And so is the text of a stream. |
| NotebookReading.OutputReadExactly | frontend/src/lib/notebookModel.ts:46-73 | An output item is read exactly when its type is known, and then every field says what the item says. |
| NotebookReading.OutputsReadExactly | frontend/src/lib/notebookModel.ts:43-75 | The outputs of a list are those of its known items, in order. |
| NotebookReading.NotebookReadExactly | frontend/src/lib/notebookModel.ts:150-172 | What a first reading makes of a notebook: own fields before those of `lumen`, every item a cell, and a new cell for a notebook without any. |
| NotebookReading.OutputSurvives | frontend/src/lib/notebookModel.ts:77-95 | An output that was read is read again from what is printed of it, but an update has become a display and transient data are gone. |
| NotebookReading.MinorPrinted | frontend/src/lib/notebookModel.ts:182-186 | The minor version printed is at least 5, and the declared one above that. |
| NotebookNormalisation.PrintedIsNormal | frontend/src/lib/notebookModel.ts:150-217 | Whatever JSON value is read, the document printed is in the normal form, which is spelt out field by field. |
| NotebookNormalisation.FixedExactlyWhenNormal | frontend/src/lib/notebookModel.ts:150-217 | Reading and printing leaves a document alone, whatever it would generate, exactly when it is in normal form. |
| NotebookNormalisation.Projection | frontend/src/lib/notebookModel.ts:150-217 | Reading and printing a second time changes nothing, for every JSON value and any generated ids and times. |
| NotebookNormalisation.ReloadKeeps | frontend/src/lib/notebookModel.ts:97-217 | A notebook that is saved and loaded keeps its identity and times and every cell's id, kind, source, count, stored outputs, circuit and attachments. |
| NotebookNormalisation.CellSurvivesExactly | frontend/src/lib/notebookModel.ts:97-202 | The four conditions for one cell: a label survives unless it is empty over another stored one, newness unless it is false over a stored true, status if it is what is read from the metadata, metadata if they already hold what is stored. |
| NotebookNormalisation.ReloadSurvivesExactly | frontend/src/lib/notebookModel.ts:97-217 | Saved and loaded again, a notebook keeps its metadata, gets revision 0 and at least minor version 5, and each cell keeps label, newness, status and metadata exactly under the cell's condition. |
| NotebookNormalisation.LabelAndNewnessLost | frontend/src/lib/notebookModel.ts:116-118 | A parsed cell whose empty label, `isNew: false` and status are lost by saving and loading. |
| NotebookNormalisation.LumenKeptExactly | frontend/src/lib/notebookModel.ts:190-201 | The printer leaves a cell's `lumen` entry alone exactly when it is an object that already has the label, the mark of a new cell and the circuit, as far as the cell has them. |
| CellIds.FixCellIds | notebook-service/app/nbformat_codec.py:139-150 | The loop over the cells with its growing set computes the specification. |
| CellIds.RowsOfXsGenerate | notebook-service/app/nbformat_codec.py:149 | The assumption about generated ids can be met: for documents of up to 64 cells that use no row of x's, the rows of x's meet it. |
| CellIds.NormalizeForCreate | notebook-service/app/nbformat_codec.py:121-155 | The whole entry point, with the fault it raises. |
| CellIds.FindIdFault | notebook-service/app/nbformat_codec.py:180-196 | The loop reports the first cell it objects to, and why. |
| CellIds.ValidateForSave | notebook-service/app/nbformat_codec.py:158-207 | The whole entry point, with the fault it raises. |
| CellIds.IdKeptExactly | notebook-service/app/nbformat_codec.py:139-150 | A cell is left alone exactly when it is the first to use a valid id; otherwise only its id changes, to the generated one. |
| CellIds.RepeatedIdReplaced | notebook-service/app/nbformat_codec.py:139-150 | An instance: a repeated and a missing id are replaced by generated ones, and the first use is kept. |
| CellIds.IdsValidAndDistinct | notebook-service/app/nbformat_codec.py:139-150 | After the loop no id is missing, malformed or repeated. |
| CellIds.NoFaultMeans | notebook-service/app/nbformat_codec.py:180-196 | No objection means that every id is a valid string and all are pairwise distinct, and conversely. |
| CellIds.CreatedIsSavable | notebook-service/app/nbformat_codec.py:121-155 | Whatever creation accepts, saving accepts unchanged, and only the minor version and cell ids differ from what was sent. |
| CellIds.FixedExactlyWhenSavable | notebook-service/app/nbformat_codec.py:121-207 | Creation leaves a document alone exactly when saving would accept it. |
| CellIds.NormalizedTwice | notebook-service/app/nbformat_codec.py:121-155 | A second normalisation changes nothing more. |
| CellIds.SavedAsSent | notebook-service/app/nbformat_codec.py:158-207 | Saving accepts exactly the documents that pass its checks and the schema, and never changes them. |
| CellIds.SavedExactly | notebook-service/app/nbformat_codec.py:158-207 | Saving accepts exactly a document of format 4 and at least minor version 5 whose cells are objects with good ids and to which the schema does not object. |
| CellIds.CreatedExactly | notebook-service/app/nbformat_codec.py:121-155 | Creating accepts exactly a document of format 4 with an integral minor version whose cells are objects, and to whose normalised form the schema does not object. |
| CellIds.ValidExactly | notebook-service/app/nbformat_codec.py:35-36 | The service's pattern passes exactly one to 64 letters, digits, underscores and hyphens, and those followed by one newline. |
| CellIds.TopFaultExactly | notebook-service/app/nbformat_codec.py:85-132 | What is wrong with the top of a document, exactly. |
| CellIds.CellsFaultExactly | notebook-service/app/nbformat_codec.py:96-107 | What is wrong with its list of cells, exactly. |
| CellIds.FirstIdFaultExactly | notebook-service/app/nbformat_codec.py:180-196 | The first cell without a good id is objected to, for the reason it gives. |
| CellIds.NewlineIdNotObjected | notebook-service/app/nbformat_codec.py:121-207 | The service's own checks do not object to a valid id followed by a newline: saving accepts such a document, and creation keeps it as it is, exactly when the schema does not object. |
| LspDocument.NotebookLspAdapter.VirtualDocument | frontend/packages/notebook/src/integrations/NotebookLspAdapter.ts:65-78 | The text and the ranges are those of the code cells that are not circuits, in order. |
| LspDocument.ShownExactly | frontend/packages/notebook/src/integrations/NotebookLspAdapter.ts:69-70 | The cells shown are those of the notebook that are code cells and no circuits, all of them and in order. |
| LspDocument.TextSpelt | frontend/packages/notebook/src/integrations/NotebookLspAdapter.ts:71-76 | A cell is shown as a marker line with its id and its source below. |
| LspDocument.LinesOfCell | frontend/packages/notebook/src/integrations/NotebookLspAdapter.ts:65-78 | Line `startLine + k` of the text is line k of the cell's source, and the line before is its marker. |
| LspDocument.CountedExactly | frontend/packages/notebook/src/integrations/NotebookLspAdapter.ts:68-76 | The running counter counts the lines of the document exactly when no cell id contains a newline. |
| LspDocument.RangesAdjacent | frontend/packages/notebook/src/integrations/NotebookLspAdapter.ts:73-76 | Between one range and the next lies exactly one line, and the last range ends the document. |
| LspDocument.RangesIncrease | frontend/packages/notebook/src/integrations/NotebookLspAdapter.ts:73-76 | The ranges are disjoint and increasing. |
| LspDocument.LinesCovered | frontend/packages/notebook/src/integrations/NotebookLspAdapter.ts:73-76 | Every counted line is a marker line or lies in a range. |
| LspDocument.ReportedExactly | frontend/packages/notebook/src/integrations/NotebookLspAdapter.ts:86-93 | A diagnostic is reported exactly when it starts in a line of the document that is no marker. |
| LspDocument.MappedBack | frontend/packages/notebook/src/integrations/NotebookLspAdapter.ts:80-93 | Mapping a diagnostic back undoes the mapping of its positions, for every line of the cell. |
| LspDocument.ReportedInCell | frontend/packages/notebook/src/integrations/NotebookLspAdapter.ts:86-93 | A reported diagnostic starts in a line of a cell with the reported id, at that place of the document. |
| LspDocument.NewlineShifts | frontend/packages/notebook/src/integrations/NotebookLspAdapter.ts:71-76 | With a newline at the end of an id, the line taken for the first line of the source is the rest of the marker. |
| ReplaceAll.FindInSource | frontend/packages/notebook/src/notebook/NotebookSearch.svelte:25-30 | The loop over `lastIndex` ends and finds all matches of the specification. |
| ReplaceAll.FindMatches | frontend/packages/notebook/src/notebook/NotebookSearch.svelte:19-33 | The matches of all cells, in order. |
| ReplaceAll.MatchesOrdered | frontend/packages/notebook/src/notebook/NotebookSearch.svelte:25-30 | Starts strictly increase and no two matches overlap. |
| ReplaceAll.MatchesComplete | frontend/packages/notebook/src/notebook/NotebookSearch.svelte:25-30 | Wherever a match could start, it is found or an earlier one covers that place. |
| ReplaceAll.FileByCell | frontend/packages/notebook/src/notebook/NotebookSearch.svelte:52-53 | Files the matches under their cell ids, in the order of first appearance, and loses none. |
| ReplaceAll.ReplaceInSource | frontend/packages/notebook/src/notebook/NotebookSearch.svelte:55-56 | Replacing in descending start order, however it was sorted, is one simultaneous substitution. |
| ReplaceAll.ReplaceEverywhere | frontend/packages/notebook/src/notebook/NotebookSearch.svelte:51-60 | Replace-all with the matches of an earlier search: up to the first id with a match that no cell has any more, the spans filed under each id are spliced, by descending start, into the present source of the first cell with it; no other cell changes. It fails exactly when there is such an id. |
| ReplaceAll.SplicedIsSubstituted | frontend/packages/notebook/src/notebook/NotebookSearch.svelte:55-56 | However they were sorted by descending start, splicing the matches of one source is one simultaneous substitution. |
| ReplaceAll.FiledIsPresent | frontend/packages/notebook/src/notebook/NotebookSearch.svelte:51-58 | A cell becomes the substitution of all its present matches if those are the spans filed under its id. |
| ReplaceAll.UnchangedSinceSearch | frontend/packages/notebook/src/notebook/NotebookSearch.svelte:18-58 | In particular a cell that is as it was searched does, when ids are distinct or at least its matches were its own. |
| ReplaceAll.SearchedAsIs | frontend/packages/notebook/src/notebook/NotebookSearch.svelte:18-58 | With nothing edited since the search replace-all does not fail, and with distinct ids every cell gets its own substitution. |
| ReplaceAll.EditedExactly | frontend/packages/notebook/src/notebook/NotebookSearch.svelte:51-58 | When the filed spans still lie inside an edited source, replacing by a character not in it gives the substitution of the present matches exactly when both leave the same gaps, and then so does every other replacement. |
| ReplaceAll.EditedSinceSearch | frontend/packages/notebook/src/notebook/NotebookSearch.svelte:18-58 | An edit between search and replace-all: the wrong text is replaced and the match stays. |
| ReplaceAll.DeletedSinceSearch | frontend/packages/notebook/src/notebook/NotebookSearch.svelte:51-58 | A cell deleted between search and replace-all: it fails and the cells after it are not replaced. |
| ReplaceAll.RepeatedIdCorrupts | frontend/packages/notebook/src/notebook/NotebookSearch.svelte:52-58 | Two cells with one id: the first ends up with a replacement it has no match for, the second keeps its match. |
| ReplaceAll.SubstitutesExactly | frontend/packages/notebook/src/notebook/NotebookSearch.svelte:51-58 | The text between the matches, filled with the matched texts, is the source; filled with the replacement, it is the result. |
| ReplaceAll.GroupIsOwnExactly | frontend/packages/notebook/src/notebook/NotebookSearch.svelte:52-54 | The matches filed under the id of the first cell with it are that cell's own exactly when no other cell with the id has a match. |

## Left out

- HTTP routes, middleware, session tokens, the websocket relay and header filtering: plumbing.
- A crash of the runtime service process, `terminate` raising, and a container left behind by a `create` that fails halfway: outside the assumption about the provider.
- `get_user_runtime`, endpoints and runtime tokens: single lookups and library calls.
- Temporary files, `fsync` and the digest pattern of the blob store: publication is one atomic step.
- Title resolution and the expiry of idempotency records: the first is a trim, the second is never consulted.
- Documents that cannot be serialised (NaN) and the internals of the official schema: the schema is a parameter.
- Signals, the dirty flag, deep copies and the observable cell list of the editor: values are immutable here.
- Unknown extra fields of parsed cells in the editor: its printer drops them.
- Key order of JSON objects: objects are maps.
- Retries of a socket connection, interrupt, restart and the mock kernel: no local property.
- Debouncing and versions of the virtual document: only its text and positions are modelled.
- Replacing a single match, selecting one, and the history that each replacement records: only replace-all is modelled.
- NoLostUpdate: does not speak about a row deleted or written by something other than the service.
- FindActiveByUser: of several rows with one creation time it does not say which is found; the unique index allows one active row.
- MatchesComplete: takes the leftmost rule of the regular expression engine as given.
