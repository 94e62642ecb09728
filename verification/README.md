# Protocols of the agent service, verified

A Dafny model of the stateful cores of the service, and proofs of what they promise:

- **Inactive-thread cleanup** (`Timestamps`, `CleanupState`, `CleanupStore`, `CleanupSafety`, `CleanupLog`,
  `CleanupOthers`, `CleanupRun`, `CleanupStart`, `CleanupForeground`):
  a job lease with takeover, thread claims with expiry, foreground touches, a resumable backfill and a
  keyset-paged deletion loop over one SQLite file. Each transaction, and each single guarded statement,
  is one atomic step on maps; any number of jobs and touches interleave.
- **AG-UI stream** (`AguiEvents`, `ReasoningDelta`, `AguiStream`, `AguiTranslator`, `AguiEntries`,
  `AguiRun`, `AguiService`, `AguiCore`, `AguiContent`, `AguiBrackets`, `AguiEndpoint`): the translator behind
  `/chat/agui`, its open-id fields changed both by the helpers and by the caller replaying their output,
  for every sequence of entries.
- **Client stream** (`ClientStream`): the consumer of LangGraph's two stream modes, against a
  specification that only looks at earlier positions of the input.
- **Thread occupancy** (`Occupancy`) and **client cache** (`ClientCache`): run counts, archive
  reservations and deletion marks; a generation-stamped cache under concurrent reloads.
- **Card patcher** (`CardPatcher`, `CardTasks`): one latest-value worker per message under cooperative
  scheduling, and why the tasks that are created amount to one.
- **Configuration** (`ConfigWrites`, `Redaction`, `RedactionLaws`, `DesktopRedaction`, `DesktopLaws`,
  `JsonValues`, `JsonPaths`): compare-and-swap
  writes with a compensating rollback, and two pairs of redact and restore.
- **Gateway** (`Gateway`): one external connection at a time, superseded, cancelled, finished or dropped.

Where the program changes state, a class has the same fields and its methods are tied by their
contracts to functions on a snapshot of those fields; the theorems are about those functions, over all
runs. Two of the classes also keep a ghost history of what their own task did and met, which steps of
others leave alone; what a deletion job or a `begin` must do is said of that history. `Common` and
`JsonValues` hold shared vocabulary.

## What the proofs found

Some promises hold only under a condition; each is stated as an equivalence or with a counterexample.

- A claim kept unexpired is still lost when its owner's *job lease* lapses: the takeover clears it and a
  touch then succeeds under the running deletion (`TakeoverUncoversClaimedThread`).
- A touched thread becomes claimable again, for a cutoff its touch had passed, exactly when its row is
  deleted and then brought back from below the cutoff. Touches carry the present time, so only the
  write of a backfill batch that still holds the old checkpoint does that (`TouchedIsClaimableExactly`,
  `StaleBackfillUndoesTheTouch`).
- A touch can get past a claim that was taken over, under the running deletion; the registry mark alone
  then keeps the run from starting (`NoRunOverADeletion`, for every run).
- A job forgets the row of a thread a second time after its deletion is over; a run that has started in
  between loses the row its touch had made (`SecondForgetErasesANewRun`).
- A cleanup start whose quiet-period check raises, and a run whose very first status write raises, leave
  the lease with the job until it expires (`StartRun`, `ExecuteRun`).
- A displaced job's run row is fenced exactly when it was pending, running or already abandoned at the
  takeover (`RunRowFencedExactly`), and not at all when it was inserted afterwards.
- Backfill never indexes an empty thread id (`EmptyIdIsNeverBackfilled`).
- The AG-UI stream is well bracketed exactly when no main text chunk reuses the id of an open subagent
  message (`EventGenerator`, `StrayIdCollides`). Such a chunk upsets subagent text only: main text,
  reasoning, tool calls and the run's own events are bracketed and finished on every connection
  (`CoreKept`).
- Growing and incremental reasoning text can be told apart only when no increment repeats everything
  before it (`IncrementsYieldConcatExactly`).
- Usage that a state lists for a message the checkpoint already had is not counted, and neither is usage
  that a later state adds to a message first listed without it (`MaskedUsageIsNotCounted`).
- Giving back a run mark that was never taken is harmless except on a thread being archived
  (`StrayDoneHarmsExactlyArchives`).
- An editor that ignores the write guard loses updates exactly in the window between the second check
  and the replacement (`UpdatesLostExactly`, `WindowDecides`).
- A rolled-back memory update restores the file exactly when the old section was absent or a mapping
  (`RollbackRestoresExactly`).
- A redacted admin value comes back exactly when no shown dictionary looks like a clear or environment
  marker; a literal lookalike does no harm (`RoundTripExactly`).
- A gateway connection whose `begin` is cancelled while it waits lets the next one start beside the
  transport it had aborted (`WithdrawalLetsTransportsOverlap`).
- A gateway lease outlives its registration: between a finish's two halves, clearing and signalling, the
  next connection can begin and two leases are held, though one of them has no transport any more
  (`LeasesOverlapOnlyWhenFreed`, `BeginsBesideExactlyTheFreed`).

## Model

| member | source | states |
|---|---|---|
| Timestamps.TextOrderIsTimeOrder | app/thread_cleanup.py:35-36 | comparing two stored timestamps as text decides which instant is earlier, although a zero fraction is dropped |
| Timestamps.ParseUndoesIso | app/thread_cleanup.py:35-48 | every valid instant is read back exactly from its stored text |
| Timestamps.IsoInjective | app/thread_cleanup.py:35-36 | two instants with the same text are the same instant |
| CleanupStore.Store.TouchThread | app/thread_cleanup.py:188-225 | raises and changes nothing while an unexpired or unreadable claim exists; otherwise activity never moves backwards, the claim is cleared, protection and every other row stay |
| CleanupStore.Store.ForgetThread | app/thread_cleanup.py:231-233 | removes exactly that thread's row |
| CleanupStore.Store.ClaimThread | app/thread_cleanup.py:466-498 | claims for 600 seconds only an unprotected row below the cutoff that is free or expired; reports whether it did |
| CleanupStore.Store.RenewThreadClaim | app/thread_cleanup.py:511-527 | extends only the job's own claim |
| CleanupStore.Store.ReleaseThreadClaim | app/thread_cleanup.py:500-509 | clears only the job's own claim |
| CleanupStore.Store.AcquireJobLease | app/thread_cleanup.py:529-583 | granted only when the lease is absent or expired, and then, in the same step, for 600 seconds; the previous owner's unfinished run is abandoned keeping its error, its claims and all expired ones are cleared, and nothing else changes |
| CleanupStore.Store.RenewJobLease | app/thread_cleanup.py:585-601 | extends the lease only for its owner |
| CleanupStore.Store.ReleaseJobLease | app/thread_cleanup.py:603-608 | removes the lease only for its owner |
| CleanupStore.Store.InsertRunRow | app/thread_cleanup.py:648-665 | records a run once per job id |
| CleanupStore.Store.UpdateRunRow | app/thread_cleanup.py:667-683 | writes a run row unless it is abandoned |
| CleanupStore.Store.CandidateRows | app/thread_cleanup.py:323-358 | the first rows past the cursor among those eligible, the longest inactive first, and nothing skipped in between |
| CleanupStore.Store.ReadBackfillBatch | app/thread_cleanup.py:248-293 | the query keeps, for this call, the first checkpointed threads past the cursor without a row, in order, or nothing once complete |
| CleanupStore.Store.WriteBackfillBatch | app/thread_cleanup.py:281-321 | writes the batch as it was read: a row for each thread that still has none, dated by its checkpoint, or protected and dated now; the cursor; or the completion mark exactly when the batch was empty |
| CleanupStore.Store.BackfillActivity | app/thread_cleanup.py:248-321 | one call is one read step and one write step, or nothing once complete |
| CleanupSafety.ExposedExactlyByRecreation | app/thread_cleanup.py:207-225 | a thread comes to have an unprotected row below a cutoff by exactly the steps that re-create a missing row there: a touch stamped below it, or a backfill batch holding it with an older checkpoint |
| CleanupSafety.TouchedIsClaimableExactly | app/thread_cleanup.py:188-225 | after a touch at or past a cutoff and any run of steps, deletions included, the thread was claimable for that cutoff at some moment exactly when a step re-created its row below it |
| CleanupSafety.TouchedIsNeverClaimed | app/thread_cleanup.py:207-225 | with touches stamped in the present and no stale batch written over a deletion, no job can claim a touched thread for that cutoff, through any number of deletions |
| CleanupSafety.StaleBackfillUndoesTheTouch | app/thread_cleanup.py:296-321 | a batch read before the touch and written after the deletion brings the thread back claimable for the cutoff |
| CleanupSafety.ClaimSurvivesExactly | app/thread_cleanup.py:466-527 | a claim survives a step exactly when the step is none of the guarded ones that end it |
| CleanupSafety.ClaimExcludesForeground | app/thread_cleanup.py:685-709 | when the clocks of touches, claims and lease attempts lie within 600 seconds of the last renewals, claim and lease stay with the job and every touch, claim of the thread and lease attempt is refused, over whole runs |
| CleanupSafety.ClaimStartsExclusion | app/thread_cleanup.py:466-498 | a granted claim names its owner and expiry and starts such a run for the lease holder; it would not have been granted after a touch at or past its cutoff |
| CleanupSafety.TakeoverUncoversClaimedThread | app/thread_cleanup.py:529-583 | for every unexpired claim whose job lease has lapsed, a takeover followed by a touch succeeds |
| CleanupSafety.TakeoverFences | app/thread_cleanup.py:529-583 | a takeover installs the new owner, abandons the old unfinished run keeping its error, clears all the old owner's claims and changes no activity |
| CleanupSafety.DisplacedJobIsFenced | app/thread_cleanup.py:585-608 | after a takeover the old job never owns the lease again, its renewals fail, its release removes nothing, and its abandoned run row never changes, over whole runs |
| CleanupSafety.RunRowFencedExactly | app/thread_cleanup.py:667-683 | the displaced job's next status write is lost exactly when its run was unfinished or already abandoned at the takeover |
| CleanupSafety.MissingRunRowIsNotFenced | app/thread_cleanup.py:733-760 | a job displaced before inserting its run row still writes it freely |
| CleanupSafety.BackfillStaysSound | app/thread_cleanup.py:248-321 | overlapping backfill calls keep every checkpointed id below the cursor indexed |
| CleanupSafety.CompletedBackfillIndexesEveryThread | app/thread_cleanup.py:281-293 | from a fresh table, in any interleaving without deletions, completion means every checkpointed thread has a row |
| CleanupSafety.RepeatedBackfillCompletes | app/thread_cleanup.py:248-321 | calls one after the other over unchanging checkpoints complete within one more call than there are threads past the cursor without a row |
| CleanupSafety.OverlappedCallMakesProgress | app/thread_cleanup.py:248-321 | with any other calls, touches and jobs between its read and its write, deletions apart, a call ends with the backfill complete or with strictly fewer checkpointed threads without a row |
| CleanupSafety.OverlappedBackfillCompletes | app/thread_cleanup.py:1069-1078 | however calls overlap, one worker's repeated calls complete the backfill within one more call than there are checkpointed threads without a row when they begin, deletions apart |
| CleanupSafety.BackfillWritesExactly | app/thread_cleanup.py:294-321 | a call adds rows for its batch only: checkpoint time unprotected, or the present time protected when unreadable; existing rows stay |
| CleanupSafety.ProtectionLasts | app/thread_cleanup.py:207-224 | a protected row stays protected through every later step but its deletion, and is never listed or claimed |
| CleanupRun.PageKeepsInv | app/thread_cleanup.py:847-859 | taking a page returns only new keys in order and passes over no untouched eligible row, although the loop deletes as it pages |
| CleanupLog.DeletionsAreClaimed | app/thread_cleanup.py:896-937 | in a sound history no thread is destroyed but two acts after this job's own claim of it, granted on a row then unprotected, below the cutoff and free |
| CleanupLog.ClaimsAreChecked | app/thread_cleanup.py:881-904 | a claim is made in no dry run, and only for a thread just seen not to run and, where scheduled threads are protected, to have no schedule |
| CleanupLog.ForgetsFollowDeletions | app/thread_cleanup.py:935-944 | a row is forgotten only right after its thread's deletion succeeded, and a claim given up only right after it failed |
| CleanupLog.ForgetsAreDeletions | app/thread_cleanup.py:935-937 | every deletion that succeeded has had its row forgotten, and nothing else has |
| CleanupLog.BooksCount | app/thread_cleanup.py:810-971 | deleted and failed count the deletions that succeeded and failed; skipped counts the candidates seen running or scheduled, the finds of a dry run and the refused claims |
| CleanupLog.DryRunsTouchNothing | app/thread_cleanup.py:889-895 | a dry run claims, destroys, forgets and releases nothing |
| CleanupLog.NothingAfterRefusal | app/thread_cleanup.py:948-955 | once a renewal of the job's lease is refused, it takes up, claims and destroys nothing more |
| CleanupRun.DeletionLoop | app/thread_cleanup.py:823-971 | terminates under interference, backfill calls that bring nothing in below the cutoff included; keys ascend strictly, no thread twice; on exhaustion every untouched eligible row was returned; its history is sound with nothing left half done, the candidates in the order of the pages, the lease renewed after each batch, and the counts and the published rows what the history adds up to; the status is what its last look or a cancellation made it, or else follows from the failures, with candidates or limit exhausted |
| CleanupRun.ExecuteRun | app/thread_cleanup.py:810-1001 | unless the very first status write raises, its history is the running row, a backfill call unless scheduled, the loop, the final row and the release; the run ends in a final status, its row says so or is abandoned if the last write succeeds, and the lease is not left with the job |
| CleanupStart.StartRun | app/thread_cleanup.py:711-808 | with everybody else acting at every await and exceptions from each statement: refused exactly without the lease, deferred exactly on recent activity seen by the check, a run that does not start leaves no lease unless that check raised; the limit is the smaller of setting and request and the cutoff the number of days back, each at least one; and its own table steps, by outcome |
| CleanupForeground.NoRunOverADeletion | app/dependencies.py:1017-1141 | in every run of table and registry together, leases lapsing and claims taken over included: while a thread is being deleted no foreground run of it runs or can be marked |
| CleanupForeground.PendingTouchesAreOld | app/dependencies.py:1017-1141 | in orderly runs (renewals in time, no one else deleting the row, no touch or backfill write bringing it back old) every start still waiting to mark a thread that is claimed or being erased had touched it before the cutoff |
| CleanupForeground.NoStartUnderAClaim | app/dependencies.py:722-730 | in orderly runs, from a granted claim until the row is forgotten every foreground start of the thread is rejected at its touch |
| CleanupForeground.SecondForgetErasesANewRun | app/thread_cleanup.py:935-937 | a run that starts after a deletion and before the job's second forget runs without an activity row |
| CleanupForeground.DeletionsAreReached | app/thread_cleanup.py:901-937 | every claimable thread whose job holds the lease reaches both states: being erased, and unmarked with the second forget to come |
| CleanupForeground.SecondForgetErasesExactly | app/thread_cleanup.py:935-937 | the second forget changes the table exactly when the row is back |
| AguiEvents.CheckerIsExact | app/routers/chat.py:202-331 | the running bracket checker accepts a trace exactly when every position meets the bracket rules stated over earlier positions |
| AguiEvents.FinishedCallsAreWhole | app/routers/chat.py:737-765 | on an accepted and finished stream each tool call has START, ARGS, END once each in that order, or none; `AguiCore.CallsAreWhole` has it for every stream |
| AguiCore.EveryEntryKeepsCore | app/routers/chat.py:459-549 | every entry from every state, colliding or not, keeps all but subagent text well bracketed and in step with the fields |
| AguiCore.AdvanceKeepsCore | app/routers/chat.py:208-296 | so does one turn of a connection, whatever was read before it |
| AguiCore.CallsFit | app/routers/chat.py:604-622 | where all but subagent text is bracketed, every tool event of the whole stream is in place: START, ARGS, END once each, and no RESULT from START to END |
| AguiCore.CallsAreWhole | app/routers/chat.py:737-805 | there each call's events are a beginning of START, ARGS, END, and on a finished stream all of it or nothing |
| AguiEvents.FinishedMeansClosed | app/routers/chat.py:297-313 | on a finished stream nothing is open and exactly one terminal event, the last, was sent |
| AguiEvents.PrefixScans | app/routers/chat.py:314-317 | a stream cut off anywhere is well bracketed so far |
| ReasoningDelta.RecordedIsEmitted | app/routers/chat.py:406-413 | the recorded text is always what was recorded before plus the delta emitted |
| ReasoningDelta.CumulativeYieldsLast | app/routers/chat.py:406-413 | growing cumulative text yields exactly its last text |
| ReasoningDelta.IncrementsYieldConcatExactly | app/routers/openai_compatible.py:227-234 | increments yield their concatenation exactly when none repeats everything sent before it |
| AguiStream.OrdinaryIdsNeverCollide | app/routers/chat.py:270-281 | when no main message id lies in the subagent namespace no collision can happen |
| AguiStream.HelperAgreesWithReplay | app/routers/chat.py:252-294 | replaying a batch gives the same open sets whether or not the helper already applied its own updates, if it changed only ids the batch names |
| AguiTranslator.ToolCallsFollow | app/routers/chat.py:737-765 | any list of calls keeps the stream bracketed: START on first sight only, repeats only update the arguments |
| AguiTranslator.ToolOutcomeFollows | app/routers/chat.py:604-622 | a result comes after ARGS and END of its call, never between START and END |
| AguiTranslator.AiCallsFollow | app/routers/chat.py:562-571 | a chunk with calls closes its reasoning and the open text and starts the calls, well bracketed |
| AguiTranslator.AiTextFollows | app/routers/chat.py:573-602 | an ordinary chunk is well bracketed unless its id is an open subagent message, and then it is not |
| AguiTranslator.AiTextReasons | app/routers/chat.py:579-589 | the recorded reasoning of every id grows by exactly the deltas the chunk emits |
| AguiEntries.SubTokenFollows | app/routers/chat.py:677-695 | a subagent token closes that task's reasoning, opens its text if need be, well bracketed, and replay leaves the sets as the helper did |
| AguiEntries.SubThinkingFollows | app/routers/chat.py:698-714 | subagent thinking opens its reasoning once, well bracketed |
| AguiEntries.SubTerminalFollows | app/routers/chat.py:717-734 | a task's end closes its open messages in the replay, without the helper touching the sets |
| AguiEntries.CloseMessagesFollow | app/routers/chat.py:374-389 | the closing events end every open message and leave none |
| AguiEntries.CloseCallsFollow | app/routers/chat.py:247-250 | ARGS and END for every open call, in whatever order, leave none open |
| AguiRun.EveryEntryKeeps | app/routers/chat.py:459-549 | every kind of entry from every state keeps fields and stream in step, arguments current and reasoning text equal to what was emitted, unless its id collides |
| AguiService.AdvanceKeeps | app/routers/chat.py:208-296 | the invariant of the whole connection survives every entry, whatever came before |
| AguiService.PassScansAlike | app/routers/chat.py:265-269 | dropping repeated snapshots changes nothing else a client sees |
| AguiService.PassNeverRepeats | app/routers/chat.py:265-269 | no two snapshots in a row carry the same ids |
| AguiEndpoint.Connection.ToolCallsToAgui | app/routers/chat.py:737-765 | the loop over calls computes the specified batch and fields |
| AguiEndpoint.Connection.MessageTupleToAgui | app/routers/chat.py:552-622 | the message helper computes the specified batch and fields |
| AguiEndpoint.Connection.SubagentTokenChunkToAgui | app/routers/chat.py:677-695 | the token helper computes the specified batch and fields |
| AguiEndpoint.Connection.SubagentThinkingChunkToAgui | app/routers/chat.py:698-714 | the thinking helper computes the specified batch and fields |
| AguiEndpoint.Connection.SubagentTerminalEventToAgui | app/routers/chat.py:717-734 | the terminal helper computes the specified batch and changes no field |
| AguiEndpoint.Connection.CloseOpenCalls | app/routers/chat.py:297-300 | every open call is closed once, in some order, with its recorded arguments |
| AguiEndpoint.Connection.ReplayBatch | app/routers/chat.py:252-294 | the caller's loop forwards all but repeated snapshots and brings the open fields to where the batch leads |
| AguiEndpoint.Connection.StreamEventToAgui | app/routers/chat.py:459-549 | dispatch of every entry but the closing one computes the specified batch and fields |
| AguiEndpoint.Connection.HandleEntry | app/routers/chat.py:208-296 | one turn of the subscription loop, the closing entry included, does what the run specification says |
| AguiContent.EveryEntrySays | app/routers/chat.py:459-549 | every entry from every state, whatever its ids, puts on the wire exactly the text, thinking, results and notes it carries |
| AguiContent.TextIsItsChunks | app/routers/chat.py:592-602 | the text shown for a message is the concatenation of its chunks, main or subagent, and a subagent's thinking likewise |
| AguiContent.EntryStarts | app/routers/chat.py:737-765 | a call has its START at its first mention and never again |
| AguiContent.AdvanceSnapshots | app/routers/chat.py:265-269 | the snapshots sent are those listed, without the ones that repeat the one before |
| AguiBrackets.EntryOpens | app/routers/chat.py:562-602 | which messages are open after an entry follows from the entry alone: main text until another main chunk with text or calls, thinking until its text or calls, a subagent's messages until its end |
| AguiBrackets.EndsNothingKeptAnywhere | app/routers/chat.py:562-602 | no message that is open before and after an entry is ended in between |
| AguiBrackets.EndsOnlyAnswered | app/routers/chat.py:604-622 | a call is ended only by its result or by the end of the run |
| AguiEndpoint.EventGenerator | app/routers/chat.py:202-331 | for every sequence of entries and every ending: well bracketed exactly without a collision, and then finished with one terminal event last; with or without one, everything but subagent text is bracketed and finished, and every text and thinking chunk, tool result and note of the entries is sent, in their order and whole, every named call once and complete (on a cut-off response a beginning of it), every changed snapshot, and which messages are open between entries is what the entries say; arguments are the last seen; reasoning text is what the provider's chunks amount to |
| ClientStream.ConsumerIsExact | deerflow/client.py:937-1056 | for every sequence of items the consumer shows exactly what each position should show given earlier positions, and totals are the first shown usage of each id plus usage without an id |
| ClientStream.CheckpointStaysSilent | deerflow/client.py:715-780 | ids seeded from the checkpoint yield no message events from states |
| ClientStream.NothingIsEchoed | deerflow/client.py:1007-1046 | each identified message yields at most one tool-calls event, and after its first text only streamed deltas |
| ClientStream.StreamedTextIsItsChunks | deerflow/client.py:1014-1029 | the text shown for a message streamed first is exactly its chunks, however often states list it |
| ClientStream.StreamState.AccountUsage | deerflow/client.py:912-935 | counts usage once per id and always without one, and reports it as new exactly then |
| ClientStream.StreamState.EventsFromStreamItem | deerflow/client.py:937-1056 | one item, message by message, does what the consumer's specification says |
| ClientStream.Stream | deerflow/client.py:1324-1351 | a whole turn shows, counts and reports lead usage exactly by positions |
| ClientStream.Chat | deerflow/client.py:1401-1431 | returns the whole text of the last message that spoke, whatever was interleaved with it |
| ClientStream.StatesAreListed | deerflow/client.py:992-1046 | the messages of a state are met one by one in its order, and then the state itself |
| ClientStream.SpokeLast | deerflow/client.py:1422-1431 | the last speaker is the message of the last event with text |
| Occupancy.ThreadRegistry.MarkThreadRunning | app/dependencies.py:953-964 | granted exactly when the thread is neither deleting nor archiving; counts it |
| Occupancy.ThreadRegistry.MarkThreadDone | app/dependencies.py:966-973 | gives back one mark, and the thread with the last one |
| Occupancy.ThreadRegistry.TryReserveArtifactArchive | app/dependencies.py:975-986 | granted exactly when the thread is free of all three uses |
| Occupancy.ThreadRegistry.ReleaseArtifactArchive | app/dependencies.py:988-992 | ends the reservation without ending a counted run |
| Occupancy.ThreadRegistry.TryBeginDelete | app/dependencies.py:1027-1032 | granted exactly when the thread neither runs nor is being deleted |
| Occupancy.ThreadRegistry.FinishDelete | app/dependencies.py:1139-1141 | ends only that mark |
| Occupancy.BuildArchive | app/routers/runs.py:55-83 | for every sequence of cancellations and either end of the worker, its end is seen before the slot goes back, delivery, failure and cancellation are told apart, and a cancelled request closes what was built |
| Occupancy.RegistryInEveryRun | app/dependencies.py:953-992 | in every interleaving the running set is the counted plus the archiving threads, the three uses are disjoint, counts equal the marks outstanding and slots are conserved |
| Occupancy.GrantedExactly | app/dependencies.py:953-996 | a run, archive or deletion is granted exactly when nothing it excludes is actually under way, and a thread reads as running exactly when something runs or archives it |
| Occupancy.ThreeWayExclusion | app/dependencies.py:1027-1032 | no thread is ever in two of running, archiving and deleting |
| Occupancy.WorkerIsCovered | app/routers/runs.py:173-198 | while a zip worker builds its request awaits it, its slot is taken and its thread reserved against every other use |
| Occupancy.OnlyItsEndReleasesTheWorker | app/routers/runs.py:66-75 | no step but the worker's end moves its request on |
| Occupancy.AtMostFourWorkers | app/routers/runs.py:49-54 | at most four archives are built at a time |
| Occupancy.SlotGrantedExactly | app/routers/runs.py:173-198 | a reserved request gets a slot exactly when fewer than four are held, and is turned away otherwise |
| Occupancy.GrantsBegin | app/dependencies.py:953-996 | what is granted begins, and what is refused changes nothing |
| Occupancy.NothingLeaks | app/routers/runs.py:82-83 | when all marks, requests and deletions are given back the registry is empty and all slots free |
| Occupancy.FileIsSettled | app/routers/runs.py:76-83 | a built archive stays open until its request gives the slot back, and then is handed over exactly when the request was not cancelled, and closed otherwise |
| Occupancy.StrayDoneHarmsExactlyArchives | app/dependencies.py:966-973 | a done without a mark keeps the registry sound exactly when the thread is not being archived |
| ClientCache.ClientManager.GetClientLocked | app/dependencies.py:327-347 | returns the cached client or the new one, and stores the new one only under the current generation |
| ClientCache.ClientManager.StoreAsync | app/dependencies.py:391-397 | compares the generation and stores in one section |
| ClientCache.ClientManager.GetAsyncClient | app/dependencies.py:349-398 | with gets and reloads between its sections, keys stay current; a client it found was in the map at that lookup under its own key while that generation was in force, and what it did not find is what it built, which is there for the next get unless a reload came in between |
| ClientCache.ClientManager.ResetClients | app/dependencies.py:684-687 | moves the generation and clears both maps |
| ClientCache.CacheIsCurrent | app/dependencies.py:308-398 | in every interleaving of gets and reloads all keys carry the current generation, with clients built since it began from configuration at least as new as the last completed reload's |
| ClientCache.ReturnedIsNotStale | app/dependencies.py:308-398 | no get returns a client older than the last reload completed before it began, or for a hit before it was served |
| ClientCache.NothingSurvivesAReset | app/dependencies.py:683-688 | no client built before a reload is in the cache after it |
| ClientCache.SharedWithinAGeneration | app/dependencies.py:371-397 | once stored, an entry stays the same client until the generation moves: no second builder replaces it |
| ClientCache.BuiltOnceIsShared | app/dependencies.py:327-347 | a client built under the generation still in force is what every later get with its key returns until the next reload |
| ClientCache.BuiltOnceIsSharedAsync | app/dependencies.py:371-398 | the same for asynchronous gets |
| ClientCache.LocksAreGivenBack | app/dependencies.py:327-398 | a lock is held only while some get is at work under it, failed builds included |
| CardPatcher.NoLostFinalText | app/channels/feishu.py:1008-1043 | for all interleavings patches are strictly growing beginnings of the text, an interval apart except possibly the last, and once drained the last is the whole text unless a call raised after it was queued |
| CardPatcher.NoSharedCard | app/channels/feishu.py:976-987 | no card shows two messages; the acknowledgement card is reused once |
| CardPatcher.DrainingEnds | app/channels/feishu.py:1117-1126 | after the end of the stream every worker turn brings its message nearer to idle and nothing takes one further away |
| CardPatcher.DueTextIsQueued | app/channels/feishu.py:1038-1043 | in every interleaving a chunk queues the whole text so far exactly when it is due: a second after the last patch, and before the first one when 24 characters are there |
| CardPatcher.TextsAreTheirChunks | app/channels/feishu.py:1102-1107 | a message's text is all its chunks, in order |
| CardTasks.AtMostOneLiveWorker | app/channels/feishu.py:1032-1036 | with workers as tasks that may be created any number of times, no message ever has two live ones |
| CardTasks.TasksRefine | app/channels/feishu.py:1008-1043 | every run of those tasks is a run of the one-worker machine, step by step |
| CardTasks.TasksLoseNoFinalText | app/channels/feishu.py:1117-1126 | once the stream is over and every task is done, the last patch of a message with a card is its whole text unless a call raised meanwhile |
| CardPatcher.CardRenderer.SchedulePatch | app/channels/feishu.py:1032-1036 | queues the newest text and starts a worker only if none is alive |
| CardPatcher.CardRenderer.OnDelta | app/channels/feishu.py:1097-1112 | collects a delta, binds a card once, and queues the text when it is due |
| CardPatcher.CardRenderer.WorkerTurn | app/channels/feishu.py:1008-1021 | the worker from its loop head to its next await |
| CardPatcher.CardRenderer.OnPatchReturned | app/channels/feishu.py:1014-1021 | records what was sent and stops only if nothing newer is queued |
| CardPatcher.CardRenderer.FinishStream | app/channels/feishu.py:1117-1120 | queues every message's whole text |
| ConfigWrites.NoLostUpdate | app/routers/admin.py:507-558 | over any interleaving of writers and outside edits outside the window, every commit was computed from the content it replaced |
| ConfigWrites.UpdatesLostExactly | app/routers/admin.py:507-558 | over every interleaving of writers and outside edits, wherever these fall, each commit was computed from the content it replaced exactly when no replacement goes over an edit made since its second check that left other content than its writer had loaded |
| ConfigWrites.WindowDecides | app/routers/admin.py:547-558 | past its second check a writer leaves the same file whatever outside edits fall in the window, and its commit was computed from what it replaced exactly when they end with what it had loaded |
| ConfigWrites.CommitsAreSerial | app/routers/admin.py:507-558 | when all writers take the guard the file is what the committed edits make of the initial content one after the other |
| ConfigWrites.AloneCommits | app/routers/admin.py:507-558 | a writer that nobody disturbs commits its edit of what it loaded |
| ConfigWrites.GuardIsGivenBack | app/routers/admin.py:507-563 | the guard is held only while a writer is at work under it, failures included |
| ConfigWrites.RollbackTouchesOnlyItsOwn | app/routers/admin.py:1043-1058 | every committed rollback replaced exactly the memory section its request wrote and left all others as found |
| ConfigWrites.RollbackRestoresExactly | app/routers/admin.py:853-855 | undoing restores the data exactly when the old section was absent or a mapping |
| ConfigWrites.ConfigFile.AtomicWriteConfig | app/routers/admin.py:507-563 | commits exactly when valid and writable and both checks meet what was loaded, and says which of these failed; undisturbed, it changes nothing otherwise |
| ConfigWrites.ConfigFile.Compensate | app/routers/admin.py:1033-1079 | the section this request wrote is undone exactly when the file can be read, still has it and can be written unchanged; a newer section is left alone; either way the runtime is brought in step unless that reload raises too, and the flags say so |
| ConfigWrites.ConfigFile.PersistMemoryAndReload | app/routers/admin.py:1082-1099 | one commit of the new section, and at most one more that undoes exactly it; undisturbed, a failed reload leaves the file's data as they were unless the undoing cannot be written |
| Redaction.RoundTripExactly | app/routers/admin.py:805-850 | restoring a shown value against the stored one gives it back, empty secrets read as none, exactly when no shown dictionary looks like a clear or environment marker |
| Redaction.OnlySecretsAreHidden | app/routers/admin.py:583-614 | two values are shown alike exactly when they differ in nothing but literal secrets |
| RedactionLaws.SecretKeysExactly | app/routers/admin.py:583-593 | a key is secret exactly when, in lower case with underscores, it is a name on the list, has one of the parts anywhere in it, or `token` as a word, and is not `api_key_env` |
| RedactionLaws.SecretsAreReplaced | app/routers/admin.py:596-609 | whatever stands under a secret key, the dictionary shown for it is spelled out: nothing, an environment reference in full when the first character that is no white space is a dollar, or a literal of which nothing is left |
| RedactionLaws.TablesAreReplaced | app/routers/admin.py:604-607 | so is every entry of an environment or header table |
| RedactionLaws.LiteralsAreIndistinguishable | app/routers/admin.py:596-601 | any two literal texts under a secret key show alike, and neither is anywhere in what is shown |
| RedactionLaws.ShownInPlace | app/routers/admin.py:604-614 | every place of a document is shown by its own key, at any depth |
| RedactionLaws.WhatEachPlaceHolds | app/routers/admin.py:805-850 | every place of a document that is taken back holds what was sent for it: an edited scalar, the stored value for a literal's marker, none, or the reference |
| RedactionLaws.RefusedExactly | app/routers/admin.py:826-832 | a document is refused exactly when some place would keep a secret that was never stored |
| Redaction.LookalikeIsLost | app/routers/admin.py:813-833 | every shown dictionary shaped like such a marker fails to come back |
| DesktopRedaction.RestoreUndoesRedact | deerflow/config_tool.py:330-359 | restoring a redacted value against its original gives the original, always |
| DesktopRedaction.LeftoverExactlyWhenUnmatched | deerflow/config_tool.py:362-369 | a placeholder is left after restoring exactly when one had nothing stored behind it |
| DesktopRedaction.ShownAsStoredExactly | deerflow/config_tool.py:308-341 | a value is shown as stored exactly when nothing in it is a hidden secret |
| DesktopRedaction.NamedItemsComeBack | deerflow/config_tool.py:372-381 | uniquely named items come back whichever are sent, in whatever order and however often |
| DesktopLaws.SecretsAreReplaced | deerflow/config_tool.py:308-341 | under a key that, stripped and in lower case, is on the list or has a secret's suffix, a value is shown only if it is nothing or an environment reference between white space, and the fixed text otherwise |
| DesktopLaws.ShownInPlace | deerflow/config_tool.py:330-341 | every place of a document is shown by its own key, at any depth |
| DesktopLaws.WhatEachPlaceHolds | deerflow/config_tool.py:344-359 | every place of a saved document holds what was sent for it, or the stored value for the fixed text if there is one |
| DesktopLaws.LastOfItsName | deerflow/config_tool.py:372-376 | an item is restored against the last stored one of its name |
| DesktopLaws.NewItemsAreKept | deerflow/config_tool.py:372-381 | an item of a new name is saved, in its place |
| Gateway.ConnectionSupervisor.NewId | bridge/src/gateway.rs:72 | the next number is above every number given out |
| Gateway.NumbersAreNew | bridge/src/gateway.rs:72 | in every interleaving the next number belongs to no connection yet |
| Gateway.ConnectionSupervisor.Begin | bridge/src/gateway.rs:71-106 | a begin takes exactly the steps of a begin: it takes over whatever it finds registered under the replacement lock, aborts it, has its done signal before it registers itself, with a number above all earlier ones and an unused signal |
| Gateway.BeginsTakeTheseSteps | bridge/src/gateway.rs:71-106 | in every interleaving of the machine a connection that holds its lease has taken the same steps |
| Gateway.ConnectionSupervisor.TakeActive | bridge/src/gateway.rs:78-81 | takes the registration and leaves none |
| Gateway.ConnectionSupervisor.Finish | bridge/src/gateway.rs:109-117 | clears the registration only of this connection |
| Gateway.ConnectionLease.ClearRegistration | bridge/src/gateway.rs:121-122 | clears its own registration and sends nothing |
| Gateway.ConnectionLease.Finish | bridge/src/gateway.rs:120-126 | undisturbed, clears its own registration and leaves exactly one signal sent |
| Gateway.ConnectionLease.SignalDone | bridge/src/gateway.rs:129-147 | the done signal is sent once, by whichever comes first |
| Gateway.StepKeeps | bridge/src/gateway.rs:70-147 | the supervisor's invariant survives begins, cancellations, ends, finishes, drops and late cleanups in any order, with take and abort, clear and signal, as separate steps |
| Gateway.AtMostOneLive | bridge/src/gateway.rs:70-106 | at most one running transport is not aborted: the registered one, or the one just taken over and about to be aborted |
| Gateway.OneTransportAtATime | bridge/src/gateway.rs:82-89 | aborted or not, two transports run at once only if one was orphaned by a cancelled replacement |
| Gateway.OneTransportUnlessWithdrawn | bridge/src/gateway.rs:82-89 | without such a cancellation at most one transport runs at any time |
| Gateway.LeasesOverlapOnlyWhenFreed | bridge/src/gateway.rs:109-126 | two leases that were not orphaned are held at once only when one has ended and its own finish has cleared but not yet signalled |
| Gateway.BeginsBesideExactlyTheFreed | bridge/src/gateway.rs:109-126 | with the lock free and no other connection registered, a begin goes through beside a held lease exactly when that lease is so freed |
| Gateway.FreedIsReachable | bridge/src/gateway.rs:120-126 | one connection that begins, ends and clears its registration reaches that state |
| Gateway.WithdrawalLetsTransportsOverlap | bridge/src/gateway.rs:87-88 | from every state with a replacement waiting on a running transport, cancelling it lets the next begin beside that transport |
| Gateway.WaitingIsReachable | bridge/src/gateway.rs:70-106 | such a state is reached by two connections beginning one after the other |
| Gateway.BeginsAfterItsPredecessor | bridge/src/gateway.rs:82-106 | a connection that superseded another begins only after that one ended and signalled |
| Gateway.DoneExactlyOnce | bridge/src/gateway.rs:120-147 | every lease signals once when it is over, finished or dropped, and never before |
| Gateway.LateFinishKeepsNewer | bridge/src/gateway.rs:109-117 | a late clear, drop, signal or cleanup takes no other connection off the supervisor's hands, in whatever phase: registered or about to be aborted it stays so, and its phase is as it was |
| Gateway.WaitingIsAnswered | bridge/src/gateway.rs:120-147 | a waiting replacement is answered already, or waits for an aborted connection that still holds its lease and can always step nearer to its signal |

## Left out

- SQLite, YAML, JSON, file system, `flock` and `fsync` mechanics: atomic steps on maps and one abstract file; content hashes are injective.
- HTTP, SSE framing and event ids, the Feishu SDK, LangGraph, model calls, MCP and Docker: inputs, results or nothing.
- `ClientManager.startup` and `shutdown`: shutdown clears only part of the occupancy state, so it is outside that invariant.
- CardPatcher.NoLostFinalText: error-event patches of the acknowledgement card and the cancellation of all workers when the stream raises are not modelled; white space is ASCII.
- CleanupSafety.ClaimExcludesForeground: an activity row without a readable expiry is SQL NULL in the model; the program never writes an unreadable one.
- CleanupForeground.PendingTouchesAreOld: proved for orderly runs; in the others a touch does get past a claim, as `TakeoverUncoversClaimedThread` and `StaleBackfillUndoesTheTouch` show.
- CleanupForeground.NoRunOverADeletion: one process's registry beside a table shared by many; an empty thread id is not touched, and the destruction of files and checkpoints is only the time between mark and forget.
- CleanupStart.StartRun: the retry time of a deferred start is left out.
- CleanupRun.DeletionLoop: touches stamped below the cutoff and backfill writes that bring in a row below it are outside its interference, since a row that enters behind the cursor cannot be returned; an exception inside the loop is one more outcome of its looks; the logging and size estimates of a run are left out.
- AguiEndpoint.EventGenerator: exceptions raised while a batch is half built, agent-name annotation of events and the payload of notes are not modelled; `attach` and `detach` are left out.
- Occupancy.RegistryInEveryRun: a producer task cancelled before its first step never gives back its mark; that step is not in the machine.
- ClientStream.Stream: the synthetic recursion-limit message and the context-window fields of the end event are left out.
- ClientCache.CacheIsCurrent: a client is the revision of the configuration it was built from; shutdown's clearing of the maps is left out.
- ConfigWrites.NoLostUpdate: an outside edit in the window between second check and replacement is excluded there and decided by `UpdatesLostExactly`.
- Redaction.RoundTripExactly: keys are strings and lower-casing and stripping are ASCII; `repr` of non-text keys is left out.
- DesktopRedaction.NamedItemsComeBack: names are texts; `str` of other names is an arbitrary function that keeps texts.
- Gateway.StepKeeps: `u64` ids do not wrap; locks are taken in any order, so fairness is not claimed; dropping a connection is the end of its transport and then the drop of its lease, the order in which the program drops them.
- Gateway.AtMostOneLive: it speaks of running transports; held leases can overlap, as `LeasesOverlapOnlyWhenFreed` says.
- Thread metadata, titles, model CRUD, subscriber timers, next-run computation and the admin UI: single-function validation or plumbing that would only add easy members.
