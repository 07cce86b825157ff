# A verified model of the agent runtime's stateful core

This project models the parts of the runtime that keep state which must survive crashes, concurrency, forks and
compaction, and proves what they promise. Each model follows its source file branch by branch: a value-level state and
its operations, theorems over every run of those operations, and, where the source updates objects in place, a class
whose methods are proved to compute exactly those operations. `dafny verify dfyconfig.toml` checks everything.

| files | what they model |
|---|---|
| TurnLedger, TurnLedgerProofs, TurnLedgerTheorems, TurnLedgerAnswers, TurnQueue | the durable turn queue with fenced leases: each SQL transaction is one step, row locks (SKIP LOCKED) and every transaction's clock reading are arbitrary |
| Admission, AdmissionProofs, TurnAdmission | the Redis admission scripts: four sorted sets, lazy purging, expiry of whole keys, lost requests and lost replies |
| SessionLog, SessionLogProofs, SessionLogFields, SessionStore, SessionFiles | the append-only session log with its size-trusted sidecar, the snapshot beside it, and a crash cutting any write at any byte |
| History, HistoryTree, HistoryOverlay, HistoryRoundTrip, HistoryAnswers, HistoryManagers | the conversation tree: forks, walks, branch-scoped compaction, saving and restoring |
| HistoryWire, HistoryLinear, HistoryReload | fork-free runs: destructive compaction, and every announced tool call answered |
| HistoryRestarts | fork-free runs that are saved and restored at any time |
| HistoryForked | runs with forks, overlays and turns: exactly when every announced tool call is answered |
| ToolScheduler, ToolStep, AgentLoops | batches of tool calls, one tool step with all its failures, the step loop that drives the history, forked or not |
| EventJournal | the bounded event ring and its readers |
| JsonlStore, JsonlWalks, JsonlSession | the replayable session file, and when walking its parent links ends |
| ToolOwnership, ToolRegistries, ToolFamilies | tool registration by owner, worker registries derived from one another, the seal of a model step, what a worker may use over time |
| PluginCatalog | plugin update and rollback with a failure at any file operation, one call and whole runs |
| ObservationTruncator | the byte and line bounds on tool output, and when there is no answer to it |
| Utf8, Common | sizes and character boundaries of encoded text; shared types |

Where the code does not do what its documentation or its purpose promises, the model follows the code; the theorem named
says exactly when it does, and a lemma gives a run in which it does not:

- A session log cut inside a character of more than one byte does not decode. Decoding errors are not among those the
  reader passes over, so every later load and audit raises and no later save writes to the log again
  (`SessionLogProofs.CutIsExact`, `SessionStore.HistoryIsNeverLost`, `SessionLogProofs.AccentIsSplit`). Records that
  are ASCII cannot be cut so.
- The sidecar of the log is trusted by size alone. A crash that leaves the log at the stale size makes it lie
  (`SessionLogProofs.RunsStaySound`, `SessionLogProofs.AppendCollides`, `SessionLogProofs.CollisionDuplicates`).
- The log compares lengths, not contents, so a replaced message is not recorded (`SessionLogProofs.SyncIsExact`,
  `SessionLogProofs.ReplacedMessageIsLost`), and a message that leaves out its role is reported as diverged for ever
  (`SessionStore.ReconcileIsExact`, `SessionStore.DivergedForever`).
- Walking to the root of a JSONL session need not end (`JsonlWalks.WalksEndExactly`,
  `JsonlWalks.ReusedIdIsItsOwnParent`).
- A fork may separate a tool call from its result (`HistoryForked.InOrderUnlessSplit`, `HistoryForked.ForkIntoTurn`), and
  so may an exception that leaves a tool step (`ToolStep.ExecuteStepTools`, `AgentLoops.LeftUnanswered`).
- Loading a history without restoring its cursor may show another branch (`HistoryRoundTrip.LoadAloneIsExact`,
  `HistoryRoundTrip.LoadAloneForgetsTheFork`).
- Destructive compaction is documented to shorten the context. It shortens the message list, but the id index keeps the
  old messages and what is sent to the model is read from the branch, which stays whole
  (`HistoryLinear.CompactionKeepsBranch`). After saving and restoring, the branch holds only the retained rounds and the
  summary is not on it (`HistoryReload.ReloadIsExact`, `HistoryRestarts.RestartShowsTheList`, `HistoryReload.ReloadExample`).
- A branch compaction made while the cursor is a label or another entry has no effect on the context
  (`HistoryOverlay.CompactionProjects`, `HistoryOverlay.LabelledExample`).
- A failed rollback is documented to change nothing; after a failure of its last rename the new state record stays
  (`PluginCatalog.RecordedUntilLastRename`, `PluginCatalog.RecordIsLost`).
- Clearing a registry removes the search tool that every other operation protects (`ToolOwnership.ClearUnpinsSearch`,
  `ToolOwnership.SearchIsLost`).
- The sweep of expired leases says it redacts the original payload; the code keeps it (`TurnLedgerTheorems.KeyStays`,
  `TurnLedgerTheorems.ReapedKeepsPayload`).
- An output that is too large can still have no answer, when its error text spells an unpaired surrogate
  (`ObservationTruncator.Truncate`, `ObservationTruncator.SpelledIsUnanswerable`).

Generated identifiers (turn ids, admission tokens, message and entry ids) are taken to be new. Clocks, row locks,
network failures, the model's replies, tool outcomes, hook outcomes, summary texts and JSON encodings are arbitrary
inputs. Digests of admission scopes and schema fingerprints are taken to be injective.

## Model

| member | source | states |
|---|---|---|
| TurnLedgerTheorems.EventLogRefinesJobs | core/persistence/postgres_turn_queue.py:69-97 | In every run each session's event numbers are exactly 1..cursor, every event is about a turn of its session, each turn's events go queued, perhaps running, then at most one terminal state, and the last one is the job's current status and fence. |
| TurnLedgerTheorems.ClaimedAndPublishedAtMostOnce | core/persistence/postgres_turn_queue.py:208-228 | In every run a turn is claimed at most once and at most one complete or fail call for it returns true; its attempt count and fence are its number of claims. |
| TurnLedgerTheorems.PublishedWasClaimed | core/persistence/postgres_turn_queue.py:377-396 | In every run a turn has at most as many published results as claims. |
| TurnLedgerTheorems.OnlyTheClaimantSucceeds | core/persistence/postgres_turn_queue.py:377-396 | Whenever renew, complete or fail returns true, an earlier claim gave the turn to that very worker with that very fence, and the lease has not ended at the call's time. |
| TurnLedgerTheorems.RunningWasClaimed | core/persistence/postgres_turn_queue.py:208-228 | A running turn was claimed by exactly the worker and fence its row names. |
| TurnLedgerTheorems.EndedForever | core/persistence/postgres_turn_queue.py:315-324 | Once a turn is completed, failed, cancelled or reaped, no later call of any worker with any fence succeeds on it, nothing claims or cancels it, and its row never changes again. |
| TurnLedgerTheorems.EnqueueIsIdempotent | core/persistence/postgres_turn_queue.py:155-190 | Enqueueing the same key, session and payload again at any later time returns the same turn and changes nothing; other work under the key is refused and changes nothing. |
| TurnLedgerTheorems.KeyStays | core/persistence/postgres_turn_queue.py:155-190 | A stored turn keeps its session, payload and key through every run. |
| TurnLedgerTheorems.ReapedKeepsPayload | core/persistence/postgres_turn_queue.py:248-283 | A run in which a turn is enqueued, claimed and swept after its lease: it failed as uncertain and its payload is still there. |
| TurnLedgerTheorems.ScopesAreIsolated | core/persistence/postgres_turn_queue.py:140-406 | No operation of one scope changes another scope's jobs, keys, cursors or events, over whole runs. |
| TurnLedgerTheorems.StepIsolated | core/persistence/postgres_turn_queue.py:140-406 | The same for one transaction of any kind. |
| TurnLedgerTheorems.ReplayPage | core/persistence/postgres_turn_queue.py:99-138 | In every state reached, a page of events after a cursor is the stored log from that position on, cut to the limit. |
| TurnLedgerTheorems.LogOnlyGrows | core/persistence/postgres_turn_queue.py:69-97 | A session's log is only ever extended. |
| TurnLedgerTheorems.RunCounts | core/persistence/postgres_turn_queue.py:208-228 | Claims and publications in a run, counted against the row: a claim is only possible while the turn is queued, a publication only while it runs. |
| TurnLedgerProofs.StepKeepsInv | core/persistence/postgres_turn_queue.py:140-406 | Every transaction keeps jobs, keys, session cursors and event histories consistent with one another. |
| TurnLedgerProofs.RunKeepsInv | core/persistence/postgres_turn_queue.py:140-406 | The same for every run. |
| TurnQueue.Queue.Enqueue | core/persistence/postgres_turn_queue.py:140-190 | A new key inserts one queued job, never attempted, and its first event; a used key answers its turn for the same session and payload and is refused for any other, writing nothing; bad arguments and unknown sessions are refused. |
| TurnQueue.Queue.SelectExpired | core/persistence/postgres_turn_queue.py:248-268 | Picks, oldest lease first, at most the limit of unlocked expired rows, and all of them if there are fewer. |
| TurnQueue.Queue.SelectQueued | core/persistence/postgres_turn_queue.py:229-240 | Picks the oldest unlocked queued row, or none if there is none. |
| TurnQueue.Queue.ReapRows | core/persistence/postgres_turn_queue.py:269-283 | Each picked row is failed as uncertain under fence 2 without a lease, each session's log goes on with the failures of its own rows in the order they were picked, and no other row, log or cursor changes. |
| TurnQueue.Queue.ReapExpired | core/persistence/postgres_turn_queue.py:285-294 | Refuses a limit outside 1..1000; otherwise sweeps exactly the picked rows and answers how many. |
| TurnQueue.Queue.Claim | core/persistence/postgres_turn_queue.py:192-246 | First the up to 100 earliest expired unlocked rows are swept; then the queued unlocked turn created first runs for this worker until now plus the seconds asked for, under fence 1 as its first attempt, and its event is appended; nothing if none is queued, a refusal if and only if the arguments are bad. |
| TurnQueue.Queue.Cancel | core/persistence/postgres_turn_queue.py:296-329 | True if and only if the turn is queued or running; then its row is cancelled under the next fence without a lease and one event says so; otherwise nothing changes. |
| TurnQueue.Queue.LeaseUpdate | core/persistence/postgres_turn_queue.py:362-406 | True if and only if the arguments are valid and the row is running under this worker and this fence with a lease that ends later than now. Then the row is exactly the renewed, completed or failed one, and completing or failing appends one event with the next number; otherwise nothing changes. |
| TurnQueue.Queue.Events | core/persistence/postgres_turn_queue.py:99-138 | The session's events after a cursor, in order, within the limit; bad arguments are refused. |
| TurnQueue.Queue.Write | core/persistence/postgres_turn_queue.py:69-97 | One row update and one event with the session's next number, together. |
| TurnLedgerAnswers.LeaseIsExact | core/persistence/postgres_turn_queue.py:362-406 | For every consistent state and all arguments: a fenced update answers true if and only if they are valid and the row exists, runs, and has this owner, this fence and time left; the new tables are the old ones with that row renewed, completed or failed and, unless renewed, one event. |
| TurnLedgerAnswers.ClaimIsExact | core/persistence/postgres_turn_queue.py:192-246 | For every consistent state and every pick the database may make: a claim sweeps exactly the picked expired rows and then lets exactly the picked queued turn run, with the lease, fence, attempt and event stated field by field. |
| TurnLedgerAnswers.SweepIsExact | core/persistence/postgres_turn_queue.py:248-283 | After a sweep exactly the picked rows are failed, and each session's log is the old one plus one failure for each of its picked rows, numbered on in their order. |
| TurnLedgerAnswers.EnqueueIsExact | core/persistence/postgres_turn_queue.py:140-190 | When an enqueue inserts, answers an old turn or refuses, and the exact row, key and event it writes. |
| TurnLedgerAnswers.CancelIsExact | core/persistence/postgres_turn_queue.py:296-329 | When a cancel answers true, and the exact row and event it writes. |
| TurnLedgerAnswers.NamesLetterByLetter | core/persistence/postgres_turn_queue.py:20-20 | Worker names and keys letter by letter: they start with a letter or digit and take up to 127 more characters of the alphabet. |
| TurnQueue.Queue.Create | db/migrations/0004_private_turn_event_outbox.sql:5-23 | A new session starts with cursor 0 and no events; an existing one is left alone. |
| TurnQueue.Earliest | core/persistence/postgres_turn_queue.py:229-240 | The row with the smallest time, ties broken by id. |
| AdmissionProofs.NeverOverCapacity | core/runtime/distributed_admission.py:29-44 | In every interleaving of acquire, renew, release and clock steps no key holds more tokens, live or dead, than the limit of its kind. |
| AdmissionProofs.LiveInAllFourSets | core/runtime/distributed_admission.py:46-64 | A token live in one of its keys is live in all four, with the same expiry. |
| AdmissionProofs.GlobalIsDisjointUnionOfTenants | core/runtime/distributed_admission.py:131-138 | A token is live globally exactly if it is live in its owner's tenant, and in no other tenant. |
| AdmissionProofs.KeyExpiryDropsNoLiveLease | core/runtime/distributed_admission.py:40-44 | The expiry of a whole key never comes before the expiry of a live lease in it. |
| AdmissionProofs.AcquireIsExact | core/runtime/distributed_admission.py:29-44 | Acquire succeeds exactly if fewer tokens than allowed are live globally, in the tenant, for the user and in the project; then the token is live in all four, and no other live token changes; otherwise nothing live changes. |
| AdmissionProofs.RenewIsExact | core/runtime/distributed_admission.py:46-59 | Renew succeeds exactly for a live token, extends it in all four keys and changes no other. |
| AdmissionProofs.ReleaseIsExact | core/runtime/distributed_admission.py:61-64 | Release ends exactly its own token. |
| AdmissionProofs.DeadStaysDead | core/runtime/distributed_admission.py:46-64 | A token once expired or released is never live again. |
| AdmissionProofs.RunKeepsInv | core/runtime/distributed_admission.py:29-64 | Limits, agreement of the four sets and expiries hold in every run. |
| TurnAdmission.Server.Acquire | core/runtime/distributed_admission.py:29-44 | The script, key by key, equals its specification. |
| TurnAdmission.Server.Renew | core/runtime/distributed_admission.py:46-59 | The script checks all four keys before it changes any. |
| TurnAdmission.Server.Release | core/runtime/distributed_admission.py:61-64 | Removes the token from all four keys. |
| TurnAdmission.Permit.Renew | core/runtime/distributed_admission.py:75-80 | A released permit renews nothing; otherwise the reply is the script's, and an unreachable server is an error whether or not the script ran. |
| TurnAdmission.Permit.Release | core/runtime/distributed_admission.py:82-90 | Releases once; a failed release can be repeated. |
| TurnAdmission.TurnAdmission.Acquire | core/runtime/distributed_admission.py:148-153 | A permit exactly if the script admitted the token and the reply arrived. |
| SessionLogProofs.SyncIsExact | core/session_log.py:175-218 | A sync of a log that ends inside a character does nothing. After any other sync from a sound disk the sidecar is accurate, the cursor is the snapshot's, and the derived history is the snapshot's if and only if the snapshot continues the logged history or the log was replaced: only lengths are compared. |
| SessionLogProofs.CutIsExact | core/session_log.py:142-218 | With a sync cut anywhere, a trusted sidecar still tells the truth if and only if the cut does not leave the log at the stale recorded size without the record describing it, and the log can still be read if and only if the cut is not inside a character. |
| SessionLogProofs.NextSyncRecovers | core/session_log.py:142-218 | After such a cut that does not collide with the recorded size, the next sync makes the log say exactly the new history and cursor, if and only if the cut was between characters and that history continues what the cut left. |
| SessionLogProofs.CutAppendRead | core/session_log.py:67-85 | An append cut between records, between the characters of one, or before the cursor record leaves the old history and a first part of the new messages; only a cut inside a character leaves a log that does not decode. |
| SessionLogProofs.CutAppendKeepsFirm | core/session_log.py:149-152 | No growth of the log after a cut makes a stale sidecar trusted again. |
| SessionLogProofs.CutPublishIsExact | core/session_log.py:295-338 | Cut between a new generation, larger or smaller, and its sidecar, the disk stays sound if and only if the new size differs from the recorded one or the record happens to describe the new file. |
| SessionLogProofs.RunsStaySound | core/session_log.py:142-218 | Over any run of complete and cut syncs a trusted sidecar states the true event count and cursor after every one if and only if no cut collides with a recorded size; and then the log can be read if and only if no cut fell inside a character. |
| SessionLogProofs.OnlyPublishCollides | core/session_log.py:149-152 | While the recorded size is not ahead of the log, the only cut that can collide is one between a new generation of exactly that size and its sidecar. |
| SessionLogProofs.AppendCollides | core/session_log.py:142-173 | An append can collide only if the log grows past a recorded size that was ahead of it, as after a cut behind a smaller generation; then some cut leaves the log at exactly that size, and it collides unless the record describes it. |
| SessionLogProofs.AsciiNeverSplits | core/session_log.py:263-274 | If the text of every record is ASCII, no cut is inside a character. |
| SessionLogProofs.IllegibleForever | core/session_log.py:67-85 | A log that ends inside a character is never changed again by any run of syncs. |
| SessionLogProofs.AccentIsSplit | core/session_log.py:263-274 | Such a log: one message with an accented letter, cut after the first of the letter's two bytes. |
| SessionLogProofs.ReplacedMessageIsLost | core/session_log.py:192-212 | A history of the same length with another message is not recorded: a concrete case where the length comparison misses a change. |
| SessionLogProofs.CollisionDuplicates | core/session_log.py:149-152 | A concrete disk on which a cut collides with the recorded size and the next sync appends a message twice. |
| SessionLogProofs.GenerationRead | core/session_log.py:295-338 | A published generation derives exactly the snapshot's history and cursor. |
| SessionLogProofs.AppendRead | core/session_log.py:263-285 | An append derives exactly the old history and the new messages. |
| SessionFiles.SessionLog.Records | core/session_log.py:67-85 | The readable lines up to the first one that is not JSON; a line that is not UTF-8 raises. |
| SessionFiles.SessionLog.DeriveMessages | core/session_log.py:98-110 | One message for each readable message record, in order: role and content with their defaults where absent, metadata, id, parent and reasoning unless blank, and no timestamp; or the reader's error. |
| SessionFiles.SessionLog.ReadCursor | core/session_log.py:90-96 | The last recorded cursor that is not empty, or the reader's error. |
| SessionFiles.SessionLog.BranchRecord | core/session_log.py:238-257 | Where old and new history part: the entries before agree, by id where both have one and by content otherwise, and the next ones do not. |
| SessionFiles.SessionLog.AppendMessages | core/session_log.py:263-274 | One line for each new message, numbered on, with its fields, blank ones left out. |
| SessionFiles.SessionLog.Publish | core/session_log.py:295-338 | Header, branch, messages and cursor in one replaced file. |
| SessionFiles.SessionLog.SaveState | core/session_log.py:156-173 | The sidecar records the file's size, count and cursor. |
| SessionFiles.SessionLog.Sync | core/session_log.py:175-218 | The whole decision on any disk, equal to its specification, with the number of messages written or the error raised. |
| SessionFiles.SessionManager.SaveSession | core/session_manager.py:121-122 | Log first, snapshot second; a sync that raises is passed over. |
| SessionFiles.SessionManager.LoadSession | core/session_manager.py:145-195 | The snapshot, or, if the log is longer, its history and its cursor where it has one, or the log alone if it holds messages or a branch point; a log behind is repaired; raises if and only if there is a log that does not decode. |
| SessionLogFields.GenerationFields | core/session_log.py:98-110 | Reading a published generation gives every message of the snapshot back field by field: metadata, id, parent and reasoning if they are not blank and nothing otherwise, role and content with their defaults where absent, no timestamp; and the cursor unless it is blank. |
| SessionLogFields.AppendFields | core/session_log.py:263-285 | Reading after an append gives back what the log held before, and then every new message field by field, and the new cursor. |
| SessionLogFields.SyncFields | core/session_log.py:175-218 | After a sync of a history that fits, the log gives every message of the snapshot back field by field. |
| SessionLogFields.GenerationIs | core/session_log.py:295-338 | A generation is a header, the branch point if there is one, the messages numbered from 1 with their fields, and the cursor if there is one, all on whole lines. |
| SessionLogFields.ShrinkIsRecorded | core/session_log.py:229-257 | A history that became shorter replaces the log by a generation that records where it left the old one, how long both are, and the id of the last common message. |
| SessionLogFields.GrowthAppends | core/session_log.py:175-218 | A history at least as long, on a log that ends in a newline, adds exactly its new messages, numbered on, and a cursor line if and only if the cursor changed. |
| SessionLogFields.CommonIsLongest | core/session_log.py:238-248 | The common part ends exactly where the two histories first disagree. |
| SessionStore.LoadAfterInterruptedSave | core/session_manager.py:113-195 | With a save cut anywhere that does not collide with the recorded size, the next load returns if and only if the cut was not inside a character; then its history extends everything known before and is a first part of the attempted one, and log and returned history agree. |
| SessionStore.SaveFromAnyState | core/session_manager.py:113-195 | The same from the very first save on, when log or snapshot do not exist yet. |
| SessionStore.HistoryIsNeverLost | core/session_manager.py:145-195 | Over any number of interrupted saves and restarts without such a collision the session can be loaded if and only if no save was cut inside a character; until then nothing that was acknowledged or returned is lost, from then on every load raises. |
| SessionStore.AsciiNeverLocksOut | core/session_manager.py:145-195 | If the text of every record is ASCII, the session can always be loaded. |
| SessionStore.IllegibleSave | core/session_manager.py:113-195 | A log that ends inside a character keeps the session closed, whatever is saved afterwards. |
| SessionStore.LoadAgrees | core/session_manager.py:167-195 | From a log that can be read, a load returns the longer of log and snapshot when one continues the other, and leaves the log equal to it. |
| SessionStore.ReconcileIsExact | core/session_manager.py:227-297 | Repair and audit raise if and only if the log does not decode. Otherwise repair touches only the log, makes it derive the snapshot's history, and the next audit agrees if and only if no message leaves out its role or content; an explicit null stays null. |
| SessionStore.RepairNeverShortens | core/session_manager.py:275-297 | A repair leaves a readable log as long as the longer of log and snapshot, and leaves a longer log as it is. |
| SessionStore.DivergedForever | core/session_manager.py:227-297 | A message without a role, saved once: every audit after any number of repairs finds the session diverged. |
| HistoryTree.BranchRefinesPaths | core/context_engine/history_manager.py:258-286 | In every run the walk over parent links returns exactly the messages on the root-to-cursor path of a model in which each node knows its path; the walk ends. |
| HistoryTree.NoAbandonedSibling | core/context_engine/history_manager.py:194-212 | Every message on the current branch is an ancestor of the cursor, so none comes from a branch that was left. |
| HistoryTree.ForkThenAppend | core/context_engine/history_manager.py:194-212 | After a fork the branch is the target's path, and the next message continues it. |
| HistoryTree.RunKeepsRep | core/context_engine/history_manager.py:77-286 | Every run keeps each stored parent an earlier node, the list and the index equal, and paths closed. |
| HistoryTree.StepKeepsRep | core/context_engine/history_manager.py:77-286 | The same for every operation, including branch compaction and pruning. |
| HistoryTree.WalkIsPath | core/context_engine/history_manager.py:267-286 | From any node the walk returns the messages on that node's path. |
| HistoryTree.PruneIs | core/context_engine/history_manager.py:595-635 | Pruning changes content and metadata of its victims in list and index alike, and no id, parent, role or order. |
| HistoryOverlay.CompactionProjects | core/context_engine/history_manager.py:461-550 | A branch compaction touches no message, link or cursor; the context becomes one summary and the last retained rounds, a suffix of the branch, if and only if the cursor is a message; otherwise the context stays as it was. |
| HistoryOverlay.OneOverlayInEveryRun | core/context_engine/history_manager.py:440-459 | In every run, however often it compacted, the context is a suffix of the path behind at most one overlay. |
| HistoryOverlay.ForkHidesOverlay | core/context_engine/history_manager.py:428-438 | After a fork to a proper ancestor of a compaction point that overlay is not selected. |
| HistoryOverlay.SelectedIsOnPath | core/context_engine/history_manager.py:428-438 | An overlay is selected only where its compaction point lies on the path to the cursor. |
| HistoryOverlay.MessagesAreKept | core/context_engine/history_manager.py:461-550 | Messages and entries only ever grow by steps other than pruning. |
| HistoryOverlay.OverlayExample | core/context_engine/history_manager.py:461-550 | Such a run: two requests, a fork to the second and a compaction; the context is the summary and the second request, the branch still both. |
| HistoryOverlay.LabelledExample | core/context_engine/history_manager.py:461-550 | A run in which the compaction succeeds and the context stays as it was: two requests, a fork, and a label set last. |
| HistoryOverlay.RetainedRounds | core/context_engine/history_manager.py:859-872 | What is retained starts at a user message and has exactly the configured number of rounds. |
| HistoryOverlay.BranchIsDistinct | core/context_engine/history_manager.py:258-286 | No message is on a branch twice, and the cursor is on it exactly if it is a message. |
| HistoryAnswers.ContextShows | core/context_engine/history_manager.py:428-459 | The context is the branch if no overlay fits it; otherwise the text of the newest overlay whose compaction point and first kept message are on the branch, followed by the branch from that message on. |
| HistoryAnswers.PruneShrinks | core/context_engine/history_manager.py:595-635 | Exactly the unpruned tool results longer than the threshold that at least the kept number of user messages follow shrink, in list and index alike, to a stub that gives their length in decimal; everything else stays. |
| HistoryAnswers.BranchCompaction | core/context_engine/history_manager.py:461-550 | A compaction after a fork succeeds if and only if the failures are below their limit, more rounds than retained (at least one) are there, text was generated and fits with the continuity anchor; a failure is counted if and only if it was generated in vain; the overlay holds that text and the first message of the last retained rounds. |
| HistoryAnswers.ListCompaction | core/context_engine/history_manager.py:676-838 | The same before the first fork: one summary, with the digest if it fits and the anchor, in place of all but the last retained rounds; it raises if and only if no round is to be retained and there are some. |
| HistoryAnswers.LoadedLabels | core/context_engine/history_manager.py:955-960 | After loading, a message's label is the one last set for it and not cleared since. |
| HistoryRoundTrip.SnapshotRoundTrip | core/context_engine/history_manager.py:913-974 | For every run without destructive compaction, loading what was serialized and restoring cursor and labels gives the history back, field by field, except the failure count. |
| HistoryRoundTrip.SnapshotKeepsContext | core/context_engine/history_manager.py:913-974 | So branch and context are the same after a restore. |
| HistoryRoundTrip.LoadAloneIsExact | core/context_engine/history_manager.py:921-960 | For every run, loading without restoring the cursor shows the same branch if and only if the last message above the node serialized last is the last message above the cursor. |
| HistoryRoundTrip.LoadAloneForgetsTheFork | core/context_engine/history_manager.py:921-960 | A concrete run in which it is not: after a fork the old branch comes back. |
| HistoryRoundTrip.LoadedEntries | core/context_engine/history_manager.py:921-960 | Loading rebuilds messages, index, entries, model and thinking level from messages followed by entries. |
| HistoryWire.CompleteIsAnswered | core/context_engine/history_manager.py:988-1055 | Messages that form complete blocks are sent with every announced call followed at once by its results, in order, and no result alone. |
| HistoryWire.CutIsComplete | core/context_engine/history_manager.py:696-697 | Cutting complete messages leaves complete parts if and only if the cut is not before a tool result. |
| HistoryWire.CompleteConcat | core/context_engine/history_manager.py:77-127 | Complete messages stay complete when complete blocks are appended. |
| HistoryWire.CompleteByCalls | core/context_engine/history_manager.py:595-635 | Completeness depends on roles, calls and ids only. |
| HistoryWire.EmitSends | core/context_engine/history_manager.py:988-1055 | A user message goes out with exactly its content; an assistant message with its content, reasoning and each call's id, name and arguments or their defaults; a result with a call id as that tool message; only a summary and a result without a call id are framed as untrusted data. |
| HistoryWire.FrameIsFramed | core/context_engine/untrusted_content.py:26-43 | A frame names the source, says that it is no instruction, and shows the whole text, or its first 64000 characters and a note, without any character that could end or begin a mark. |
| HistoryWire.UnescapeOfEscape | core/context_engine/untrusted_content.py:36-37 | Escaping loses nothing. |
| HistoryLinear.EveryCallIsAnswered | core/context_engine/history_manager.py:988-1055 | In every fork-free run, with pruning and any number of destructive compactions, both the message list and the branch context are sent with every call answered at once and in order. |
| HistoryLinear.LinearKeepsLastRounds | core/context_engine/history_manager.py:687-838 | A destructive compaction keeps exactly the last configured rounds, unchanged, behind one summary, and a second one at once does nothing. |
| HistoryLinear.LinearIs | core/context_engine/history_manager.py:687-838 | A failed compaction moves the failure count at most; a successful one replaces the list, adds an entry and moves the cursor to the last message. |
| HistoryLinear.OneSummaryFirst | core/context_engine/history_manager.py:811-824 | In every fork-free run there is at most one summary and it is first. |
| HistoryLinear.ListIsBranchOrSuffix | core/context_engine/history_manager.py:811-836 | In every fork-free run the message list is the whole branch or one summary in front of the branch from a user message on. |
| HistoryLinear.CompactionKeepsBranch | core/context_engine/history_manager.py:258-286 | Destructive compaction does not reach the tree: branch and branch context are the same after it as before, so what is sent from the branch does not get shorter. |
| HistoryLinear.TurnIsComplete | agents/codeAgent.py:961-973 | The messages of one tool step form a complete block. |
| HistoryLinear.EventIsOperation | core/context_engine/history_manager.py:77-192 | Each event of a fork-free run other than destructive compaction is the corresponding operation on the tree, and a tool turn is an assistant message followed by its results in call order. |
| HistoryLinear.RunBase | core/context_engine/history_manager.py:77-186 | What every step of a fork-free run keeps: the tree, the shape of the list, complete blocks. |
| HistoryReload.ReloadIsExact | core/context_engine/history_manager.py:913-974 | For every fork-free run, a saved and restored session shows the same branch if and only if the message list still is the branch, that is, no compaction dropped a message. |
| HistoryReload.ReloadLosesTheSummary | core/context_engine/history_manager.py:913-974 | After a destructive compaction a saved and restored session walks only the retained rounds: the summary is in the list but not on the branch. |
| HistoryReload.ReloadExample | core/context_engine/history_manager.py:811-836 | Such a run: two requests and a compaction, after which the branch shows both before saving and only the second after restoring. |
| HistoryRestarts.InOrderAcrossRestarts | core/context_engine/history_manager.py:913-1055 | In every fork-free run in which the session is saved and restored any number of times, with destructive compactions before and after, both the message list and the branch context are sent with every call answered at once, and the list is the end of the branch, perhaps behind a summary. |
| HistoryRestarts.RestartShowsTheList | core/context_engine/history_manager.py:913-974 | At any point of such a run a restart keeps the list and makes the branch exactly the list behind its summary, so it shows the same branch if and only if every message of the branch is still listed. |
| HistoryRestarts.LifeGoesOn | core/context_engine/history_manager.py:913-974 | What every event and every restart keeps: the chain from the cursor up to the root or to a dropped message, the list against it, complete blocks. |
| HistoryForked.InOrderUnlessSplit | core/context_engine/history_manager.py:194-550 | Over every run of requests, answers, tool turns, metadata, forks, navigation, overlays, pruning and, before the first fork, destructive compaction: what would be sent has every call answered at once and no result alone after every step, if and only if no step moves the cursor to a message with a tool result below it. |
| HistoryForked.CompleteIffAnswered | core/context_engine/history_manager.py:988-1055 | Messages whose results name their calls are sent in order if and only if they form complete blocks. |
| HistoryForked.ContextIff | core/context_engine/history_manager.py:440-459 | Whichever overlay applies, what is sent is in order if and only if the branch below it is complete. |
| HistoryForked.ForkInOrder | core/context_engine/history_manager.py:194-212 | A fork leaves everything in order if and only if no tool result hangs below its target. |
| HistoryForked.NavigateInOrder | core/context_engine/history_manager.py:214-256 | The same for navigation with a summary of the branch left. |
| HistoryForked.FineIsInOrder | core/context_engine/history_manager.py:988-1055 | Whatever such a run without splits reaches is in order: the context always, and the message list until the first fork. |
| HistoryForked.ForkIntoTurn | core/context_engine/history_manager.py:194-212 | A run in which a fork to an assistant message leaves its call without a result. |
| HistoryManagers.HistoryManager.AddUser | core/context_engine/history_manager.py:77-87 | Appends exactly this text as a user message below the cursor and forgets failures. |
| HistoryManagers.HistoryManager.AddAssistant | core/context_engine/history_manager.py:89-107 | Appends the text with its calls, its reasoning and the model last selected. |
| HistoryManagers.HistoryManager.AddTool | core/context_engine/history_manager.py:109-127 | Appends exactly this result under its call id and tool name. |
| HistoryManagers.HistoryManager.ForkAt | core/context_engine/history_manager.py:194-212 | Refuses if and only if the target is no message; otherwise the cursor is the target and one entry says where it came from. |
| HistoryManagers.HistoryManager.Navigate | core/context_engine/history_manager.py:214-256 | The same, and a summary of the branch left, as a message below the target, if there is one. |
| HistoryManagers.HistoryManager.Find | core/context_engine/history_manager.py:1069-1073 | The first entry with an id. |
| HistoryManagers.HistoryManager.GetCurrentBranch | core/context_engine/history_manager.py:258-286 | The loop with its seen-set computes the branch and ends on every input. |
| HistoryManagers.HistoryManager.IdentifyRounds | core/context_engine/history_manager.py:859-872 | First and last position of each round. |
| HistoryManagers.HistoryManager.SelectedCompaction | core/context_engine/history_manager.py:428-438 | The newest overlay whose compaction point and first kept message are on the branch; none if and only if there is none. |
| HistoryManagers.HistoryManager.ContextBranchMessages | core/context_engine/history_manager.py:440-459 | The branch, or one summary and what its overlay kept. |
| HistoryManagers.HistoryManager.PruneToolOutputs | core/context_engine/history_manager.py:595-635 | Shrinks exactly the unpruned tool results of the context that are longer than the threshold and lie before the last kept rounds, in list and index, to a stub that gives their length, and counts them. |
| HistoryManagers.HistoryManager.Compact | core/context_engine/history_manager.py:663-857 | Branch-scoped after a fork, destructive otherwise; it succeeds if and only if the failures are below their limit, more rounds than retained are there, and generated text fits; the failure count, the summary's text and what it replaces are exact; retaining no round is refused after a fork and an index error before. |
| HistoryManagers.HistoryManager.CompactSelectedBranch | core/context_engine/history_manager.py:461-550 | Adds one overlay or refuses, for any configured number of retained rounds. |
| HistoryManagers.HistoryManager.CompactMessages | core/context_engine/history_manager.py:676-857 | Replaces the prefix by one summary, refuses, or raises. |
| HistoryManagers.HistoryManager.MessagesToWire | core/context_engine/history_manager.py:988-1055 | One sent message for each message: a user message with exactly its content; an assistant message with its content, reasoning and calls, names and arguments with their defaults; a result with a call id as that tool message; a summary and an unpaired result, and nothing else, framed as untrusted data. |
| HistoryManagers.HistoryManager.SerializeEntries | core/context_engine/history_manager.py:913-919 | All messages, then all entries. |
| HistoryManagers.HistoryManager.LoadEntries | core/context_engine/history_manager.py:921-960 | Rebuilds everything but the failure count; each label is the one last set. |
| HistoryManagers.HistoryManager.RestoreTree | core/context_engine/history_manager.py:962-974 | The saved cursor if it exists, and the saved labels. |
| ToolScheduler.PlanToolBatches | core/runtime/tool_scheduler.py:24-54 | Batches hold the calls in order; each is a single barrier or a run of safe calls, as long as possible, overlapping exactly if it has two or more; with fewer than two workers every call is alone. |
| ToolScheduler.PlanIsUnique | core/runtime/tool_scheduler.py:24-54 | There is only one such plan. |
| ToolScheduler.RunToolBatch | core/runtime/tool_scheduler.py:57-82 | Outcomes come back in call order whatever order overlapping calls finish in. |
| ToolStep.ExecuteStepTools | agents/codeAgent.py:931-1189 | One step appends the assistant message and exactly one result per call, in call order, with assigned ids holding, truncated for its tool: the tool's own result as the result hook publishes it if its batch was not stopped, arguments, preparation and dispatch were good and nothing interrupted it; otherwise the interruption, parse error, preparation error, dispatch error or hook failure of its case. A batch is as far as calls that may overlap go. It raises if and only if some call meets an exception that nothing catches; then the results before the first such call are recorded and no others. |
| ToolStep.RunBatch | agents/codeAgent.py:1050-1119 | The observations of one batch in call order, case by case: stopped before, bad arguments, stopped during, failed preparation, failed dispatch, published result, failed hook. |
| ToolStep.ObservationIs | agents/codeAgent.py:1024-1048 | What is observed of a call is exactly what its case calls for, and the cases leave no choice. |
| ToolStep.RaisesIs | agents/codeAgent.py:1050-1189 | A call raises out of the step exactly if it is the first of a batch that raises, or what is observed of it cannot be recorded. |
| ToolStep.PrepareBatch | agents/codeAgent.py:1056-1070 | Which calls were prepared and which failed. |
| ToolStep.BatchStartsAt | agents/codeAgent.py:1050-1056 | All calls of a batch see the interruption flag as it was when their batch began. |
| ToolStep.NameCalls | agents/codeAgent.py:961-963 | Every call gets an id; given ids stay. |
| AgentLoops.AgentLoop.RunSteps | core/runtime/agent_loop.py:45-119 | From any history, forked or not, that a run without splits can reach, the loop records one complete turn for each step that asked for tools, ends as the first step that decides or the limit says (or in a destructive compaction that raises because no round is to be retained), records the answer if there is one, does the pruning and compaction that is due before every model call and no other, and leaves what is sent in order, unless an exception left a tool step: then neither the list nor the context has every call answered. |
| AgentLoops.AgentLoop.Compress | core/runtime/agent_loop.py:84-84 | The pruning that is due and then the compaction that is due, and nothing else, go before a step; they say nothing and keep the history in order; compaction is an overlay after a fork, and only a retention of no rounds before one raises. |
| AgentLoops.DecisionIs | core/runtime/agent_loop.py:60-119 | What a step decides, case by case: interrupted before or after the model call, failed call, no reply, tool calls that raise or go on, an empty or a final answer. |
| AgentLoops.StripIsExact | core/runtime/agent_loop.py:96-104 | Only blanks are stripped from an answer, and only at its two ends. |
| AgentLoops.LeftUnanswered | agents/codeAgent.py:1160-1189 | What an exception leaves of a tool step has a call without a result, in the list and in the context. |
| EventJournal.FollowerReadsExactly | core/runtime/event_journal.py:94-104 | With puts and polls interleaved in any way and any page sizes, a follower that was told of no gap has read exactly the events of the unbounded history after its start, once each and in order. |
| EventJournal.GapIffNeededEventEvicted | core/runtime/event_journal.py:94-98 | A gap is reported if and only if an event after the cursor was evicted. |
| EventJournal.GapMeansEvicted | core/runtime/event_journal.py:94-98 | Over a whole run a follower hears of a gap if and only if some poll found an event it needed evicted. |
| EventJournal.PollingCatchesUp | core/runtime/event_journal.py:100-104 | Undisturbed, a follower that is not behind has everything after as many polls as events were missing. |
| EventJournal.ActiveCursorResumes | core/runtime/event_journal.py:61-71 | Whatever is put meanwhile, reading from the active cursor starts at the last run.started, or replays a complete history without one, or reports a gap. |
| EventJournal.Journal.Put | core/runtime/event_journal.py:73-89 | The next number; the event comes last in the ring, and only a full one drops its oldest. |
| EventJournal.Journal.ReadUnlocked | core/runtime/event_journal.py:94-98 | The retained events after the cursor, at most the limit, in order, equal to a page of the unbounded history, with an exact gap flag. |
| EventJournal.Journal.ReadAfter | core/runtime/event_journal.py:100-104 | Refuses bad arguments. |
| EventJournal.Journal.WaitAfter | core/runtime/event_journal.py:106-114 | Returns at once if there is something to say, else looks again after others may have put events. |
| EventJournal.Journal.GetNowait | core/runtime/event_journal.py:116-134 | The oldest retained event after the queue reader's own cursor. |
| EventJournal.Journal.ActiveTurnCursor | core/runtime/event_journal.py:61-71 | One before the last retained run.started, or 0 if none is retained. |
| JsonlStore.ReopenEqualsLive | core/context_engine/jsonl_store.py:82-130 | After any sequence of appends and leaf moves, reopening gives exactly the live store if and only if no entry has an empty id and the last line is not a leaf marker appended by hand for another target. |
| JsonlStore.ReplayedParts | core/context_engine/jsonl_store.py:82-130 | Entries and labels always come back, and the index up to empty ids. |
| JsonlWalks.AppendKeepsWalksFinite | core/context_engine/jsonl_store.py:156-184 | An append keeps every walk over parents finite if and only if the new id is not met on the walk from its parent, counting the parent itself and a missing id at the end. |
| JsonlWalks.WalksEndExactly | core/context_engine/jsonl_store.py:156-200 | Over every run of appends and leaf moves, all walks end at every point if and only if no append closes such a loop. |
| JsonlWalks.PathShowsChain | core/context_engine/jsonl_store.py:216-228 | The path a store gives shows the ids met on the walk, so a caller can check for a loop before appending. |
| JsonlWalks.PathIsUnique | core/context_engine/jsonl_store.py:216-228 | There is only one parent-linked path to an entry, from a root or from a missing parent. |
| JsonlWalks.DefaultRunReopens | core/context_engine/jsonl_store.py:156-200 | Every run that leaves ids and parents to the store is replayed exactly. |
| JsonlWalks.DefaultRunIsOrdered | core/context_engine/jsonl_store.py:156-200 | Such a run keeps every parent an earlier entry and the leaf an entry. |
| JsonlWalks.DefaultWalksEnd | core/context_engine/jsonl_store.py:216-228 | In such a run every walk ends, at an entry without a parent. |
| JsonlWalks.ReusedIdIsItsOwnParent | core/context_engine/jsonl_store.py:156-184 | An id used twice makes an entry its own parent, and the walk from it has no end: a concrete run. |
| JsonlSession.JsonlSessionStore.Open | core/context_engine/jsonl_store.py:82-130 | Rebuilds the store from a header and entries: ids stand for the last line with them, labels and leaf are those last set; or names what is wrong, the first bad line if there is one, and loads nothing. |
| JsonlSession.JsonlSessionStore.AppendEntry | core/context_engine/jsonl_store.py:156-184 | One line on file and the same entry in memory, under the given or generated id, below the given parent or the leaf. |
| JsonlSession.JsonlSessionStore.MoveTo | core/context_engine/jsonl_store.py:186-200 | Refuses if and only if the target is unknown; otherwise one marker below the old leaf records the move and the target is the leaf. |
| JsonlSession.JsonlSessionStore.GetPathToRoot | core/context_engine/jsonl_store.py:216-228 | Given that the walk is finite, ends, and returns the parent-linked path, from a root or from an entry whose parent is missing. |
| ToolOwnership.RunKeepsOwned | tools/registry.py:291-390 | In every run tools and functions are disjoint and the owner map covers exactly their union. |
| ToolOwnership.ReplaceIsExact | tools/registry.py:409-449 | A replacement makes the owner's inventory exactly the new list, bound to the new objects, and leaves every other owner's bindings. |
| ToolOwnership.UnregisterOwnerIsExact | tools/registry.py:451-453 | An unregistered owner is left with nothing and nobody else loses anything. |
| ToolOwnership.ForeignRunsKeepBindings | tools/registry.py:291-390 | Whatever other owners do over a run, a binding stays until its owner touches it, the registry is cleared, or the boot handoff takes it. |
| ToolOwnership.SandboxIsPinned | tools/registry.py:131-135 | Under a sandbox the approved names stay bound as they are through every run. |
| ToolOwnership.SearchIsPinned | tools/registry.py:236-247 | While discovery is on, the search tool stays bound as it is in every run without clearing. |
| ToolOwnership.ClearUnpinsSearch | tools/registry.py:1263-1273 | Clearing removes the search tool even while discovery is on, if and only if no sandbox forbids clearing. |
| ToolOwnership.SearchIsLost | tools/registry.py:1263-1273 | Such a run: register the search tool, enable discovery, clear; discovery stays on without its tool and cannot be enabled again. |
| ToolFamilies.WorkerNeverExceeds | tools/registry.py:158-234 | However a worker was derived and whatever happens afterwards to any registry of the family, it may use a name if and only if the name was derivable then, the parent still offers that very object unchanged and in working order and may use it itself, the worker still has its own copy, and its own sandbox and host agree. |
| ToolFamilies.NeverGained | tools/registry.py:158-234 | So no worker below it, however deep, ever gains a name that was not derivable when its registry was made. |
| ToolFamilies.LaterKeeps | tools/registry.py:158-198 | Over any run of operations, derivations, reshaped tools and changed policies every registry stays owned, keeps its parent and the record of what it was derived from. |
| ToolRegistries.OfferedAtEveryDepth | tools/registry.py:200-289 | A name may be used if and only if the registry and every registry above it permit it (sandbox, host, mode, what is discovered), nothing there is broken, and no link of the chain has come loose since it was derived; a local denial concerns only the registry that has it. |
| ToolRegistries.UnsealedExecution | tools/registry.py:643-760 | Without a seal a call executes if and only if the name is offered and bound, and then exactly what it is bound to. |
| ToolRegistries.NeverHandedDown | tools/registry.py:48-53 | Tools that steer the parent are never handed down, whoever allows them. |
| ToolRegistries.AllowedAtEveryDepth | tools/registry.py:200-234 | A name allowed in a worker is allowed at every ancestor, and at each step of the chain bound in the parent to the very object the child was derived from, with the schema it had. |
| ToolRegistries.RevokedBelow | tools/registry.py:200-221 | A binding replaced, removed, reshaped or broken anywhere up the chain is revoked in every worker below. |
| ToolRegistries.DerivedIsExact | tools/registry.py:158-198 | A fresh worker is allowed exactly the derivable tools its parent is allowed and has in working order. |
| ToolRegistries.PrefixAllowed | tools/registry.py:158-198 | Deriving a worker changes nothing for the others. |
| ToolRegistries.DeriveWorkerRegistry | tools/registry.py:158-198 | The copying loop builds a worker with private copies of exactly the tools that may be handed down (not denied, not parent-only, with a schema, allowed), under the parent's owners, sandbox and host; or no worker if and only if a derivable tool or its permission gate cannot be isolated. |
| ToolRegistries.SealedExecution | tools/registry.py:455-490 | A sealed call executes if and only if its name was sealed here, is still offered, and is bound to the same object with the same schema; then it executes that object. |
| ToolRegistries.ToolRegistry.Register | tools/registry.py:291-329 | Binds the name to this tool and its registrant if and only if the owner is valid, nobody else owns the name except for the one handoff at boot, no sandbox approves it, no function has it and it is not the search tool in use; otherwise nothing changes. |
| ToolRegistries.ToolRegistry.RegisterAsFunction | tools/registry.py:331-364 | The same for functions, without the handoff. |
| ToolRegistries.ToolRegistry.Remove | tools/registry.py:366-390 | Succeeds if and only if the owner is valid, nobody else owns the name, no sandbox approves it and it is not the search tool in use; then the name is unbound and unowned and every other name stays bound as it was. |
| ToolRegistries.ToolRegistry.ReplaceOwnedTools | tools/registry.py:409-449 | Succeeds if and only if all names are distinct, not blank, nobody else's and not the search tool in use, and no sandbox is set; then the owner has exactly these tools; otherwise nothing changes. |
| ToolRegistries.ToolRegistry.ClearAllTools | tools/registry.py:1263-1273 | Refused under a sandbox, else everything goes. |
| PluginCatalog.Catalog.UpdateZip | core/plugin_loader.py:387-463 | Refused exactly for the first thing wrong with it, and then nothing changes. An update that goes through installs the archive's files disabled, untrusted and unpinned under its checksum, keeps what was installed as the backup with its version and checksum, and touches no other plugin. With a failure of any one rename or of the state write, installed tree, backup and state are as before, unless only the final cleanup failed. |
| PluginCatalog.Catalog.Rollback | core/plugin_loader.py:465-503 | A rollback that goes through exchanges both trees and their checksums, disables and distrusts, and touches no other plugin. With any one failure both trees are back; the state is back if and only if it was not the last rename that failed. |
| PluginCatalog.Catalog.Exchange | core/plugin_loader.py:480-501 | The renames and the state write of a rollback and its handler. |
| PluginCatalog.Catalog.Swap | core/plugin_loader.py:434-459 | The protected renames and handlers. |
| PluginCatalog.Catalog.Replace | core/plugin_loader.py:428-461 | All file operations of an update. |
| PluginCatalog.TwoRollbacksRestore | core/plugin_loader.py:465-503 | Two rollbacks restore both trees and both checksums, with the plugin disabled and untrusted. |
| PluginCatalog.RollbackUndoesUpdate | core/plugin_loader.py:387-503 | A rollback after an update brings back tree and checksum from before it. |
| PluginCatalog.RetryIsTheSame | core/plugin_loader.py:387-463 | After a failed update the same update gives what it would have given. |
| PluginCatalog.RecordedUntilLastRename | core/plugin_loader.py:387-503 | Over any run of updates and rollbacks, each with a failure of any one file operation or none, the recorded checksums are those of the archives the trees in place came from, after every call, if and only if no rollback of trees from different archives failed in its last rename. |
| PluginCatalog.TwoUpdatesRestore | core/plugin_loader.py:387-463 | Two updates that go through make the records right whatever they were. |
| PluginCatalog.RecordIsLost | core/plugin_loader.py:465-503 | A concrete disk, update and failed rollback after which the second version is installed and recorded with the checksum of the first. |
| PluginCatalog.LastRenameLosesTheRecord | core/plugin_loader.py:480-501 | If only the last rename of a rollback fails, records match trees if and only if both trees have the same checksum. |
| ObservationTruncator.Truncate | core/context_engine/observation_truncator.py:126-297 | Within the limits the output comes back untouched, at most max_bytes + max_lines - 1 bytes long; beyond them the answer has at most max(2, max_bytes) bytes and is the full report if that fits (preview, sizes, status, kept error, diagnostics), else one that gave up the preview first, then diagnostics, error, text and path, else a fallback; its preview shows the first lines, the last lines or both around an ellipsis. There is no answer if and only if decoding raises something other than a decode error, the output itself cannot be encoded, or it exceeds the limits, its status is error and what is kept of its error text has a surrogate in it. |
| ObservationTruncator.SendableUnlessErrorBreaks | core/context_engine/observation_truncator.py:203-262 | Diagnostics never keep an answer from being encoded; the kept error text is the only part that can. |
| ObservationTruncator.SpelledIsUnanswerable | core/context_engine/observation_truncator.py:258-284 | Such an output, all in ASCII: its message spells one unpaired surrogate and its data makes it too large. |
| ObservationTruncator.HalfIsUnanswerable | core/context_engine/observation_truncator.py:258-268 | Any too large output with that message has no answer; with the surrogate behind 160 other characters it has one. |
| ObservationTruncator.UntouchedBoundIsReached | core/context_engine/observation_truncator.py:163-167 | The first bound is reached. |
| ObservationTruncator.NormalizedSizes | core/context_engine/observation_truncator.py:366-368 | Unescaping saves one byte for each newline it makes. |
| ObservationTruncator.Shrink | core/context_engine/observation_truncator.py:280-314 | The loop returns the first ever smaller answer that fits, else a fallback that does, if the answer can be encoded; otherwise it raises in the first pass. |
| ObservationTruncator.SixtyFourAttemptsSuffice | core/context_engine/observation_truncator.py:283-305 | For previews below 2^59 characters the loop only gives up if the smallest form does not fit. |
| ObservationTruncator.PreviewShowsPart | core/context_engine/observation_truncator.py:316-364 | A preview shows the text itself if it has few lines; otherwise its first max_lines lines, its last ones, or its first and last head_tail_lines around the ellipsis line; if that is too long, the longest first part within max_bytes, or for a tail the longest last part. |
| ObservationTruncator.PreviewIsStartOrEnd | core/context_engine/observation_truncator.py:341-358 | A head preview is a first part of the text and a tail preview a last part, of exactly min(lines, max_lines) lines if no byte is cut. |
| ObservationTruncator.NormalizeAtEscape | core/context_engine/observation_truncator.py:366-368 | Every two-character newline escape becomes a newline, wherever it stands. |
| ObservationTruncator.NormalizeWithout | core/context_engine/observation_truncator.py:366-368 | A text without that escape stays as it is. |
| ObservationTruncator.AnswerReports | core/context_engine/observation_truncator.py:196-268 | The answer before it is shrunk: status, preview and its size, the first 64 and 160 characters of the error's code and message or their defaults, the diagnostics kept. |
| ObservationTruncator.BoundedIs | core/context_engine/observation_truncator.py:280-314 | What comes back is the answer itself if it fits, or one that gave things up in the stated order and fits, or a fallback. |
| ObservationTruncator.DiagnosticsKeepAll | core/context_engine/observation_truncator.py:212-231 | No diagnostic is left out while all are scalar and short together. |
| ObservationTruncator.PreviewFits | core/context_engine/observation_truncator.py:349-358 | The preview keeps to the byte limit if and only if it is not a non-empty tail with a limit of zero. |
| ObservationTruncator.PreviewLines | core/context_engine/observation_truncator.py:331-347 | The preview has at most max_lines lines, or twice the head-and-tail count and one. |
| ObservationTruncator.JoinOfSplit | core/context_engine/observation_truncator.py:329-347 | Splitting into lines and joining gives the text back. |
| ObservationTruncator.SmallFields | core/context_engine/observation_truncator.py:212-231 | Kept diagnostics are at most 32 scalar fields of the tool's, in order, that can be encoded, within 256 bytes. |
| ObservationTruncator.FirstBytesFit | core/context_engine/observation_truncator.py:349-358 | A head cut keeps the longest prefix whose encoding fits. |
| ObservationTruncator.AfterBytesFit | core/context_engine/observation_truncator.py:349-358 | A tail cut keeps a suffix whose encoding fits. |

## Left out

- SQL text, row-level security, role probes, connection handling and JSON decoding: only the row-level effect of each transaction is modelled.
- Session deletion and its cascade over turns and events.
- Redis transport: a failed call may or may not have taken effect, and nothing else is said about it.
- Log directories, temporary names and fsync: an atomic replace, an append and a torn tail are what remains of the file system.
- Session index, titles, previews, listing, `reconcile_index`, migrations and legacy snapshots of `core/session_manager.py`.
- History entries and the cursor of a snapshot rebuilt from a longer log: the model follows messages and cursor, not the linear entries derived beside them.
- HistoryLinear.EveryCallIsAnswered: for fork-free runs; `HistoryForked.InOrderUnlessSplit` has the exact condition for all others, of the branch context, which is what is sent.
- HistoryLinear.CompactionKeepsBranch: for fork-free runs, the only ones in which the destructive compaction is used.
- HistoryRoundTrip.SnapshotRoundTrip: for runs without destructive compaction; `HistoryRestarts.RestartShowsTheList` says what a restore gives after one in a run without forks. Forks in a session that was compacted destructively and then restored are not modelled.
- The wording of summaries: digest of touched files, continuity anchor and recorded goal are inputs of the compaction.
- `_collect_branch_messages`, the old single-call metadata of assistant messages, token estimates and timestamps.
- Concurrency of worker threads beyond the order in which calls of a batch finish; the instance-level override of the tool dispatcher; worktrees, model switching and memory capture of `agents/codeAgent.py`.
- The exact JSON of error envelopes: only their code and message are kept.
- AgentLoops.Strip: knows space, tab, carriage return and line feed, not every Unicode space.
- AgentLoops.AgentLoop.RunSteps: exceptions of event sinks, trace loggers and message builders outside the tool step are not modelled; those of the model call, of compaction and of the tool step are.
- ToolStep.ExecuteStepTools: an exception that nothing catches is raised by a batch before its results or by the decoding of one observation; which observations those are is arbitrary there (in the source, those `ObservationTruncator.Unanswerable` describes).
- ToolStep.RunBatch: the observations if no exception leaves the batch.
- HistoryManagers.HistoryManager.MessagesToWire: the test of the action type and the old metadata of a single call are not modelled; calls are those of the call list.
- The lock and condition variable of the event journal: each call is one step, and puts by others happen while a reader waits.
- JsonlSession.JsonlSessionStore.GetPathToRoot: requires that the walk from the given id is finite, since the source's loop does not end otherwise; `JsonlWalks.WalksEndExactly` says in which runs all walks are, and `JsonlWalks.AppendKeepsWalksFinite` what to check before an append.
- SessionFiles.SessionLog.Records: reads line by line, while the source decodes blocks of the file; that differs only when a line that is not JSON is followed by one that is not UTF-8.
- Tool execution itself, timeouts, optimistic-lock injection and result normalization of `tools/registry.py`; the catalog behind deferred discovery, of which only what is visible remains; the binding of a hosted authority, of which only the allowed names remain.
- PluginCatalog.Catalog.UpdateZip: at most one file operation fails, and the handlers' own operations then succeed; a handler that fails as well leaves whatever it had done.
- PluginCatalog.Catalog.Rollback: the same, for its handler.
- PluginCatalog.Catalog.Replace: the same.
- PluginCatalog.Catalog.Swap: the same.
- PluginCatalog.Catalog.Exchange: the same.
- ZIP validation, content fingerprints, enabling and trusting of plugins.
- Receipts of full tool outputs and their cleanup: their path and the hint that names it are inputs, taken to be encodable.
- Strings that cannot be encoded in UTF-8, outside of `ObservationTruncator`.
- Models, providers, browser, hooks, CLI, settings, goals, budgets and the circuit breaker's own state.
