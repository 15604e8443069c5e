# Verified model of the Claude Code harness

The harness runs Claude Code as a child process, turns what it prints into
events, keeps a chain of session ids in a SQLite file shared by all its bridge
processes, and must neither lose nor repeat an answer, hang a request or let a
restarted session run with other permissions. This project models those parts
and proves what they keep, over all inputs and all runs.

Where the source changes fields in place there is a class whose methods are
proved against a specification on values; where it interleaves goroutines,
processes or crashes there is a state machine whose steps are single statements
or single actions. Cost is an exact `real`, time an integer number of
nanoseconds, and stdout frames, stored entries and content are datatypes that
are already parsed, with a case for what does not parse.

| file | models |
|---|---|
| `assistant_text.dfy`, `assistant_recovery.dfy`, `no_double_render.dfy` | matching the two copies of each answer over a two-turn window |
| `state_store.dfy`, `chain_rotation.dfy`, `chain_sequences.dfy`, `harness_chain.dfy`, `chain_histories.dfy`, `boot_histories.dfy` | the write-ahead log and the chain of session ids, under crashes and many processes |
| `cold_import.dfy` | importing transcripts, in full and changed-since |
| `usage.dfy`, `message_content.dfy`, `stream_translation.dfy` | translating stdout frames, per-call usage and per-turn cost |
| `turn_waiters.dfy`, `turn_machine.dfy`, `turn_protocol.dfy`, `held_readers.dfy`, `shared_usage.dfy` | readers, turn waiters, where readers wait and the usage they share |
| `watchdog.dfy`, `process_deaths.dfy` | the idle watchdog and how the end of a process is reported |
| `task_waiters.dfy` | stopping commands that watch a finished output file |
| `rollout_tail.dfy`, `stored_entries.dfy`, `live_and_stored.dfy` | tailing a rollout and the translations that must agree |
| `rune_cut.dfy`, `journal_mode.dfy`, `spawn_flags.dfy` | the rune-boundary cut, the journal-mode retries, the flags of every spawn |
| `options.dfy` | a value that may be absent |

`dafny verify dfyconfig.toml` checks all of it.

## What the code does differently from its own words

Each of these is a run or an input that shows it, and the exact condition.

- handler.go:551-553: nothing double-renders when every segment was delivered. But
  handler.go:588-594 consumes the current turn's count first, so of two late copies
  of one text delivered in consecutive turns the second is surfaced
  (`NoDoubleRender.RepeatAssumptionIsNeeded`; exactly when: `RenderedOnceIff`).
- handler.go:419-421 speaks of rows "from a prior crash"; recovery orphans every
  pending row, a live process's included (`ChainHistories.BootCancelsAnothersStart`,
  for all tables `HarnessChain.BootCancelsStagedRotations`; exactly when, in any
  history: `BootHistories.BootOrphansIff`).
- handler.go:374-386: a refused insert is only logged, and the session is moved to
  the announced id all the same (`ChainHistories.ForkLeavesNoRollout`; exactly when:
  `ChainRotation.WhenTheInsertIsRefused`, `HarnessChain.AnnouncementMovesTheSession`).
- handler.go:329-331: a listing that fails answers 0, like an empty chain, and nothing
  keeps two announcements of one session apart (`ChainHistories.FailedListingRepeatsANumber`,
  `TwoWritersRepeatANumber`; exactly when: `ChainSequences.NumberedThroughoutIff`).
- handler.go:955-957: a caller may supply the id of a start, so one id can be
  committed twice (`ChainHistories.OneIdTwoRows`; exactly when:
  `ChainRotation.ExactlyOneRowIff`).
- discover.go:185-215: the changed-since walk fails on a file named `.jsonl`,
  which discover.go:116-119 skips (`ColdImport.WalkOverBareSuffix`; exactly when:
  `DiscoverSessionsChangedSince`).
- handler.go:1459-1464: nothing in the reader depends on anyone waiting. But it writes
  to the process's stdin under the lock a request holds across its own write
  (process.go:402-413), so a frame can wait for a request
  (`HeldReaders.AFrameWaitsForARequest`; exactly which frames: `CanBeHeldUpIff`;
  among the waits modelled here, exactly when: `TurnProtocol.ReaderIsHeldUpIff`).
- translate.go:826-839: a result carries the aggregator's own slice, which another
  reader can write to before it goes out (`SharedUsage.AnotherReadersCallIsListed`;
  exactly when: `EmittedListIs`).
- discover.go:558-559: the walk-back costs at most three bytes, which not every byte
  string keeps to (`RuneCut.CutStrayContinuations`; exactly when:
  `TruncateAtRuneBoundary`; valid UTF-8 always does).
- handler.go:1621-1624: two checks per timeout. At a timeout of 1 ns the watchdog
  checks every 15 s (exactly when: `Watchdog.IntervalIsHalf`).
- handler.go:1698-1703: a death the watchdog caused is not reported again. But its
  mark comes after its error and the next spawn clears it
  (`ProcessDeaths.LateMarkBringsASecondError`, `RespawnBringsASecondError`), and a
  reader that comes to the end of stdout before the process is known to be gone
  reports nothing (`EarlyCloseBringsNoError`; exactly when: `DiedIff`, `OneErrorIff`).
- handler.go:176-184: model and effort are kept so that a resumed session does not
  change them. A `control` request for either, or for the permission mode, changes
  the running process and is not kept (`SpawnFlags.RespawnForgetsControls`; exactly
  when: `RespawnKeepsSettingIff`).

## Assumptions named in the statements

- `NoDoubleRender.Paired` and `NoConsecutiveRepeat`: how copies and deliveries
  pair up; `RenderedOnceIff` needs neither.
- `ChainRotation.NeverAgain`: no id is committed a second time, which is exactly what
  "exactly one row" needs; `FreshIds` is one way to have it, and a start with a
  caller-supplied id may break it. "Some committed row" needs neither.
- `ChainSequences.WellUsed`: one writer per bridge session, bridge ids distinct
  from transcripts not yet recorded, and no failed listing of a session that
  has rollouts. Nothing in the code makes a dead process's reader finish before
  the next spawn, so one writer is an assumption.
- `JournalMode.ClockAdvances`: a monotone clock, and sleeps at least as long as asked.
- `Watchdog.Life`: the ticker fires on time, and a release at the very instant of
  a tick is taken as the release.

## Model

| member | source | states |
|---|---|---|
| `AssistantText.KeyIdentifiesWords` | handler.go:634-639 | Two texts get the same matching key exactly when they consist of the same words, and a key is its own key. |
| `AssistantText.FieldsAreWords` | handler.go:637-639 | What the text is split into are non-empty runs without white space. |
| `AssistantText.FieldsOfJoin` | handler.go:637-639 | Joining words with single spaces and splitting again gives the words back: the key loses nothing but white space. |
| `AssistantText.FieldsLoseOnlySpace` | handler.go:637-639 | The words run together are the text without its white space: nothing visible is lost, added or moved. |
| `AssistantText.KeyIgnoresPadding` | handler.go:634-639 | White space added at either end of a copy never changes its key. |
| `AssistantRecovery.Recovery.Emit` | handler.go:442-465 | An OTel copy is buffered and nothing else; a stream-json segment is counted under its key and sent; any other event is only sent. |
| `AssistantRecovery.Recovery.BeginTurn` | handler.go:542-548 | This turn's deliveries become the last turn's; the buffer is untouched. |
| `AssistantRecovery.Recovery.Reconcile` | handler.go:578-595 | One copy consumes this turn's count before the last turn's; side calls consume nothing and are not surfaced. |
| `AssistantRecovery.Recovery.TakeUndelivered` | handler.go:571-597 | The locked part of a flush: the whole buffer is reconciled in order and both records end as the counting specification says. |
| `AssistantRecovery.Recovery.FlushRecoveredAssistant` | handler.go:571-623 | A flush empties the buffer and sends the undelivered texts, numbered and marked recovered, after everything already sent. |
| `AssistantRecovery.FlushSurfacesTheRest` | handler.go:558-597 | For every text: the first min(pending copies, deliveries in this turn plus last turn) copies are matched and exactly the later ones are surfaced, in arrival order. |
| `AssistantRecovery.FlushKeepsArrivalOrder` | handler.go:576-623 | Across all texts, what is surfaced is a subsequence of the buffered conversation copies. |
| `AssistantRecovery.FlushSendsInOrder` | handler.go:606-623 | What a flush sends: after everything already sent, one recovered OTel segment for each undelivered text, in arrival order and numbered from 0. |
| `AssistantRecovery.CurrentTurnGoesFirst` | handler.go:585-595 | A flush consumes deliveries of the last turn only once none of this turn's are left, and in all min(pending, available). |
| `AssistantRecovery.FlushSurfacesWhenShort` | handler.go:571-597 | A flush surfaces nothing if and only if no text has more pending copies than unconsumed deliveries. |
| `AssistantRecovery.SecondFlushIsIdle` | handler.go:556-597 | Flushing twice is flushing once. |
| `AssistantRecovery.FlushAccounts` | handler.go:571-597 | One flush consumes min(pending, available) deliveries of each text and turns the rest of its pending copies into recovered events. |
| `AssistantRecovery.CopiesAreConserved` | handler.go:442-597 | Over every run and for every text: copies received = matched + recovered + still pending, deliveries = matched + still in the window + expired, so matched never exceeds delivered. |
| `AssistantRecovery.EveryCopyIsAccountedFor` | handler.go:442-597 | Over every run, all OTel copies received = matched + recovered + side calls + still pending. |
| `NoDoubleRender.NothingIsRenderedTwice` | handler.go:542-597 | When each OTel copy pairs one-to-one with a delivery it is flushed after, in that delivery's turn or the next, and no text is delivered in two consecutive turns, exactly what stream-json delivered goes out, once and in order. |
| `NoDoubleRender.RenderedOnceIff` | handler.go:571-623 | In any run at all, what goes out is exactly what stream-json delivered, once and in order, if and only if at every flush no text has more pending copies than unconsumed deliveries. |
| `NoDoubleRender.WaitingInOneTurn` | handler.go:585-595 | At every flush of such a run, the deliveries a text's waiting copies belong to all lie in one turn of the two-turn window. |
| `NoDoubleRender.RepeatAssumptionIsNeeded` | handler.go:588-594 | For any text, a run that meets every assumption but the one on consecutive repeats renders that text a third time, because a flush consumes the current turn's count first. |
| `StateStore.State.UpsertSession` | state.go:255-268 | Inserts or overwrites one session row; refused for an empty id. |
| `StateStore.State.InsertRollout` | state.go:312-333 | Adds one row unless an id is empty, the kind unknown, the harness id already recorded (primary key) or the session without a row (foreign key); then nothing changes. |
| `StateStore.State.InsertWal` | state.go:392-426 | Appends one pending row and answers its id; refused for an empty session or intent. |
| `StateStore.State.CommitWal` | state.go:430-443 | Only a pending row becomes committed, with the new id and path; otherwise refused without change. |
| `StateStore.State.OrphanWal` | state.go:447-459 | Only a pending row becomes orphaned; otherwise refused without change. |
| `StateStore.State.ListPendingWal` | state.go:492-516 | The ids of the pending rows, ascending. |
| `StateStore.PendingListed` | state.go:492-516 | An id is listed exactly when its row exists and is pending. |
| `StateStore.State.ListRollouts` | state.go:369-388 | Every rollout of the session, once, by ascending sequence. |
| `StateStore.State.BridgeSessionIDForHarness` | state.go:357-367 | Known exactly when the harness id has a rollout row, and then the session that row names. |
| `StateStore.StatementsExtend` | state.go:178-231 | Whatever its arguments, a statement only adds rows and only changes pending WAL rows, and keeps the foreign key. |
| `ChainRotation.HistoryKeepsInv` | handler.go:351-434 | In every history of any number of processes, interrupted between any two statements, crashed or failing anywhere, every thread, staged rotation and rollout is backed by the WAL row it claims. |
| `ChainRotation.RotationsAreLogged` | handler.go:364-383 | At every moment, every start or fork rollout not written by a cold import has a WAL row committed with the same new harness id, session, intent, parent and path. |
| `ChainRotation.ExactlyOneRowPerRotation` | handler.go:364-383 | As long as no id is committed again, exactly one WAL row is committed with a start or fork rollout's id, session, intent, parent and path, namely the one it was written from. |
| `ChainRotation.ExactlyOneRowIff` | handler.go:364-383 | Exactly one row is committed with the rollout's id if and only if no announcement of that id reached its commit, with its row still pending, when a row committed with the id was already there. |
| `ChainRotation.FreshIdsNeverCommitAgain` | handler.go:364-383 | If no init event announces an id a second time for a start or fork, no id is committed again. |
| `ChainRotation.OnlyCommittedRowsYieldRollouts` | state.go:430-459 | A WAL row yields at most one rollout and only a committed one does: an orphaned row never yields a rollout. |
| `ChainRotation.OutcomesAreFinal` | state.go:430-459 | Between any two moments of a history, committed and orphaned rows are unchanged and no session, rollout or WAL row disappears. |
| `ChainRotation.WhenTheInsertIsRefused` | handler.go:374-383 | With the WAL row committed, a start's insert is refused exactly when the id is empty or already recorded, a fork's also when its bridge session has no row: a committed row does not imply a rollout. |
| `ChainSequences.NextSequenceCounts` | handler.go:325-334 | In a session numbered 0 to n-1, the next sequence read off any listing is n. |
| `ChainSequences.InsertKeepsNumberingIff` | handler.go:369-380 | An accepted insert keeps a session numbered 0 to n if and only if its sequence is the number of rollouts already there; a failed listing, which answers 0, or a stale one breaks it. |
| `ChainSequences.SessionsStayNumbered` | handler.go:364-416 | Across starts, forks, rotated resumes, refused and failed inserts, crashes and cold imports, with one writer per session, bridge ids distinct from unrecorded transcripts, and no failed listing of a session that has rollouts, every session's rollouts carry 0 to n-1 without gap or repeat. |
| `ChainSequences.NumberedThroughoutIff` | handler.go:364-416 | In any history, with no assumption, a session carries 0 to n-1 at every moment up to one if and only if every rollout inserted into it until then carried the number of rollouts it had. |
| `ChainSequences.OnlyStartsHaveNoParent` | handler.go:351-417 | In every history, with no assumption, a rollout's parent is empty exactly when its kind is start. |
| `HarnessChain.Harness.NextSequence` | handler.go:325-334 | The number after the last rollout of some listing of the session, 0 without a session. |
| `HarnessChain.Harness.ClearPendingChain` | handler.go:509-517 | Nothing stays staged, and the answer is the WAL row that was. |
| `HarnessChain.Harness.RecordChainOnInit` | handler.go:351-417 | Uninterrupted, it clears the staging; a start or fork whose WAL row is pending commits that row with the new id, and like a resume whose id rotated moves the session to it and adds its rollout, numbered after the session's last and naming the staged parent and kind, unless the id is empty or recorded or the session has no row; any other resume only moves the session; all else writes nothing. |
| `HarnessChain.Harness.StageRotation` | handler.go:993-1054 | Adopts the session id; a cold start, fork or resume leaves the tables as its thread does and stages exactly its own WAL row, intent and parent; when SQLite fails a statement it is not ok, stages nothing and leaves only what was already written. |
| `HarnessChain.Harness.HandleProcessExit` | handler.go:1685-1716 | Only when the process is known to be gone is the staged rotation dropped and its WAL row orphaned; PROCESS_DIED goes out exactly when it died and the watchdog did not kill it. |
| `HarnessChain.RecoverOrphansOnBoot` | handler.go:422-435 | Boot recovery orphans every pending row and changes nothing else. |
| `HarnessChain.BootOrphansPending` | handler.go:419-435 | The recovery thread's statements, one row at a time, end there too; a second recovery is a no-op and nothing is pending after. |
| `HarnessChain.BootCancelsStagedRotations` | handler.go:422-435 | A row it orphans may be another live process's: that start or fork's init event then writes nothing at all. |
| `HarnessChain.FinishRecording` | handler.go:365-386 | Run alone, a start or fork announcement commits, inserts and upserts, or changes nothing when the commit is refused. |
| `HarnessChain.AnnouncementMovesTheSession` | handler.go:369-386 | With its row pending, an announcement moves the session to the announced id in any case, and that id has a rollout after it exactly when it had one before or, not being empty, its session has a row. |
| `HarnessChain.FinishRotating` | handler.go:401-415 | Run alone, a resume whose id rotated inserts a resume rollout naming the old id as parent and moves the session to the new id. |
| `HarnessChain.FinishImporting` | discover.go:143-160 | Run alone, an import's thread gives the transcript's id a session of its own and, unless it has one, a rollout numbered 0 without a parent. |
| `ChainHistories.ResumesAlone` | handler.go:393-416 | From any moment of any history between threads, a resume announced with another id is recorded under that id with the old one as its parent, unless the id has a rollout or the session no row, and the session moves to it; with the same id, or without one, only the session moves. |
| `ChainHistories.RotatedResumeIsRecorded` | handler.go:401-415 | A reachable history: a recorded start, resumed and announced with another id, has two rollouts, numbered 0 and 1, the second a resume naming the first. |
| `ChainHistories.SoloFinishes` | handler.go:351-434 | A thread of the rotation machine that nothing interleaves with, from any reachable moment, does to the tables and the staging what the uninterrupted methods do. |
| `ChainHistories.ForkLeavesNoRollout` | handler.go:374-386 | A reachable history: a fork of a session without a row commits its WAL row, has its rollout refused and moves the session to an id without a rollout. |
| `BootHistories.BootOrphansIff` | handler.go:422-435 | In every history, whoever a row belongs to: a row pending when a boot listed gets one statement of that boot, and once the boot is past it, it was orphaned by that boot if and only if SQLite accepted the statement and the row was still pending then. |
| `BootHistories.BootLeavesTheRest` | handler.go:422-435 | And a boot orphans no row that was not pending when it listed. |
| `ChainHistories.BootCancelsAnothersStart` | handler.go:422-435 | A reachable history: a second process boots while a first has a start under way, whose row is orphaned and whose id then gets no rollout. |
| `ChainHistories.OneIdTwoRows` | handler.go:955-957 | A reachable history: one id announced for two starts, as a caller-supplied one can be, ends with two rows committed with it. |
| `ChainHistories.FailedListingRepeatsANumber` | handler.go:329-331 | A reachable history: a listing fails in a session with a rollout, and the next rollout is numbered 0 too. |
| `ChainHistories.TwoWritersRepeatANumber` | handler.go:369-380 | A reachable history: a fork is announced to its end while a start of the same session is between reading its number and inserting, and both are numbered 0. |
| `ColdImport.LoadKnownHarnessIDs` | discover.go:243-259 | Under the foreign key, the ids collected session by session are exactly the rollouts table's keys, which is what the indexed lookup answers from. |
| `ColdImport.ColdImportRollout` | discover.go:143-160 | Two statements, the session's and the rollout's; the second is not reached when the first is refused. |
| `ColdImport.ColdImportRollouts` | discover.go:97-134 | Of a process no other interferes with: the full walk never fails on the tables and records each named transcript without a row from the first file of that name. |
| `ColdImport.ImportIsRefusedIff` | discover.go:122-127 | One transcript's import is refused exactly for an empty id or one that has a row, so an id another process recorded after the known set was loaded stops the walk. |
| `ColdImport.ImportsAre` | discover.go:143-160 | An import of any paths gives every id without a row its rollout from its path and a session of its own, and changes nothing else. |
| `ColdImport.EveryTranscriptHasItsRow` | discover.go:90-134 | After it every transcript stem has exactly one rollout row, every earlier row is unchanged, nothing else appeared and the foreign key holds. |
| `ColdImport.ImportAgainIsNoOp` | discover.go:92-93 | Importing again changes nothing. |
| `ColdImport.ImportRepairsACrash` | discover.go:143-160 | After a crash anywhere, between a transcript's two writes included, the next import ends where an uninterrupted one would have. |
| `ColdImport.ImportInStages` | discover.go:97-134 | Importing some of the transcripts first never changes where a full import ends. |
| `ColdImport.DiscoverSessionsChangedSince` | discover.go:168-239 | The fast walk fails exactly when a changed file has an empty stem (named `.jsonl`), which the full walk skips; otherwise it imports exactly the changed files without a row and reports each under the session its row names. No earlier row ever changes. |
| `ColdImport.WalkOverBareSuffix` | discover.go:185-215 | A changed file named `.jsonl` alone stops the fast walk and not the full one. |
| `ColdImport.FastWalkAgreesWithFull` | discover.go:162-239 | With distinct stems and no changed file named `.jsonl`, the fast walk writes for the changed files the very rows the full walk writes, and a full walk after it ends where it would have without it. |
| `ColdImport.ChangedPathIsLast` | discover.go:171-187 | The fast walk maps every changed name to the path of the last changed file of that name, and no other name. |
| `Usage.UsageAggregator.AddAPICall` | usage.go:50-57 | Appends a call: in place while the backing array has room, leaving its other elements alone, else into a fresh copy. |
| `Usage.UsageAggregator.Finalize` | usage.go:66-101 | The result's own totals with the context snapshot of the last call, and this turn's cost out of the cumulative one. |
| `Usage.UsageAggregator.TakeTurnCost` | usage.go:108-121 | The difference to the running total, or the whole total after a restart, or none; an unpriced turn leaves the running total alone. |
| `Usage.UsageAggregator.APICallUsages` | usage.go:124-126 | A view of the backing array itself that reads as the calls so far. |
| `Usage.UsageAggregator.Reset` | usage.go:134-137 | Clears the calls and the tool count; the backing array and the running cost stay. |
| `Usage.CostsSumToEpochTotals` | usage.go:103-121 | Over any cumulative totals, the returned costs sum to the last totals of all process epochs, split at each decrease, non-positive totals ignored. |
| `Usage.EachCostIsBounded` | usage.go:108-121 | Each returned cost is positive and at most the total it was reported with. |
| `Usage.HeldSliceIsOverwritten` | usage.go:124-137 | A slice kept past Reset shows the old calls only until the next call, which is written over its first element. |
| `MessageContent.DecodeText` | translate.go:238-260 | A bare string, the non-empty text blocks joined by newlines, or nothing. |
| `MessageContent.LinesAt` | translate.go:253-259 | The parts stand one after the other in the text, a newline after each but the last, and nothing else. |
| `MessageContent.TextIsEmptyIff` | translate.go:309-334 | A block list reads as empty text exactly when none of its text blocks has any. |
| `StreamTranslation.TranslateEvent` | translate.go:81-114 | For every frame and aggregator state: the events, each read as it stands right after translation, are the specified ones with the frame's session id or ours and its parent tool use, and the aggregator ends in the specified state. |
| `StreamTranslation.TranslateByType` | translate.go:120-146 | Each frame type reaches its own translator; internal frames give nothing, unknown ones a system event, and a background task list that cannot be read goes out under its own subtype. |
| `StreamTranslation.TranslateAssistant` | translate.go:693-787 | One call is recorded and each text, thinking or tool-use block becomes its event at its block's index. |
| `StreamTranslation.BlockIsShown` | translate.go:693-787 | Each known block of a message gives one event, in order, carrying its own index, text or names and the message's id; there are no others. |
| `StreamTranslation.TranslateUserFrame` | translate.go:168-201 | Every tool result becomes an event, in order; text becomes one only under a parent tool use. |
| `StreamTranslation.ResultIsShown` | translate.go:168-190 | Each tool result gives one event, in order, with its own id, text and error mark; there are no others. |
| `StreamTranslation.TranslateResult` | translate.go:789-873 | First a result or an error event, an aborted turn being a result, then one denied hook per denial; although Reset has run, the result's slice still reads as the turn's calls. |
| `StreamTranslation.ResultFrameGives` | translate.go:800-873 | A result frame's first event is an error exactly if it is marked an error and its turn was not aborted, with the first message given; otherwise it is a result with the frame's text and tokens, the turn's cost and the calls so far; the denials follow in order. |
| `StreamTranslation.ReadStream` | handler.go:1514-1516 | Emitting each event before the next frame is read, the reader emits exactly the concatenation of the frames' translations. |
| `StreamTranslation.SessionIsLatestInits` | handler.go:1518-1526 | The session id events are stamped with, where their frame names none, is the one the latest init frame to name one named, or the one at the start. |
| `StreamTranslation.CallsSinceResult` | usage.go:50-57 | After any frames the aggregator holds exactly the usages of readable assistant frames since the last result frame, in order. |
| `StreamTranslation.ResultListsItsTurn` | translate.go:792-839 | At emission every result lists exactly those usages, counts them, and takes its context snapshot from the last. |
| `StreamTranslation.BoundaryOfFrame` | translate.go:808-840 | A result frame's first event is the one event that ends a turn; no other frame produces one. |
| `StreamTranslation.OneBoundaryPerResult` | translate.go:120-146 | A stream's events end exactly as many turns as it has result frames. |
| `StreamTranslation.ChargesAndDrops` | translate.go:792-840 | What result events charge plus what error results drop is the sum of all process epochs' last totals. |
| `TurnWaiting.TurnWaiters.RegisterTurnWaiter` | handler.go:1583-1594 | Releases the current waiter, if any, and hands out a fresh open one; no channel is closed twice. |
| `TurnWaiting.TurnWaiters.SignalTurnEnd` | handler.go:1600-1607 | Closes the current waiter, if any, and leaves none. |
| `TurnWaiting.RegisterIsSound` | handler.go:1583-1594 | Registering keeps closes distinct, leaves every earlier waiter closed and only the new one open. |
| `TurnWaiting.SignalIsSound` | handler.go:1600-1607 | Signalling keeps closes distinct and leaves every waiter handed out so far closed. |
| `TurnProtocol.WaitersStaySound` | handler.go:1583-1607 | Under every interleaving of dispatcher, any number of readers, process death and shutdown, no waiter is closed twice and a handed-out waiter is open exactly when it is the current one. |
| `TurnProtocol.TurnEndClosesEarlierWaiters` | handler.go:1551-1558 | A waiter armed before a turn-ending event goes out is closed once that event's reader has gone past the boundary. |
| `TurnProtocol.ExitClosesEarlierWaiters` | handler.go:1470-1478 | A waiter armed before a reader exits, at end of file or shutdown, is closed once it has. |
| `TurnProtocol.ReleaseClosesEarlierWaiters` | handler.go:1600-1607 | After any reader's signal every waiter handed out before it is closed, and stays so. |
| `TurnProtocol.ReleasedByAnotherTurn` | handler.go:1551-1558 | A waiter can be released by a turn that is not its own: one armed while an unprompted result is on its way out is closed before another frame is read. |
| `TurnProtocol.SendsExactlyTheTranslations` | handler.go:1465-1566 | Whatever requests, waiters, OTel emits, other readers and unprompted turns interleave, a reader has sent a prefix of its frames' events, each once and in order, and all of them between frames; a result's per-call list is what the next rows speak of. |
| `TurnProtocol.OneBoundaryPerTurnEnd` | handler.go:1551-1558 | Between frames a reader has flushed, signalled and begun a turn exactly once for each result frame it took (and begun one at its start). |
| `TurnProtocol.TurnEndsAreFlushedFirst` | handler.go:1551-1558 | In every run, after each turn-ending event its reader flushed, then released the waiter, then began the next turn, with nothing of its own in between; an init event it handled next; each stop_task request led to another or to the frame's translation. |
| `TurnProtocol.OneStopPerWatcher` | handler.go:1487-1516 | Between frames a reader has translated every frame once and written one stop_task request for each task to stop. |
| `TurnProtocol.ExitsFlushFirst` | handler.go:1470-1478 | A reader that has gone ended in flush, exit handling and release at end of file, and at a shutdown released without a flush or exit handling. |
| `TurnProtocol.InitSetsTheSession` | handler.go:1521-1526 | Handling an init frame that names a session makes it the reader's, and no other step of a reader changes it. |
| `TurnProtocol.ReaderIsHeldUpIff` | process.go:402-413 | A reader with something to do cannot go on exactly when it stands where it writes a stop_task or get_settings request while a request is writing to that process's stdin: of the waits modelled, the only one. |
| `TurnProtocol.HeldUpUntilTheWriteEnds` | process.go:402-413 | Held up, it stays where it is through anything that happens until that write ends. |
| `TurnProtocol.HeldUpFramesWrite` | handler.go:1487-1547 | In every run, a frame that stops no task and is no init whose information can be read never holds its reader up. |
| `HeldReaders.CanBeHeldUpIff` | handler.go:1487-1547 | After any run, some continuation in which its reader is given nothing else holds a frame up if and only if it stops a task or is an init whose information can be read. |
| `HeldReaders.AStoppingFrameWaits` | handler.go:1487-1489 | From any world, a frame that stops a task stands untranslated before its first request for as long as a request's write to that process's stdin lasts. |
| `HeldReaders.AnInitWaits` | handler.go:1545-1547 | And an init frame, its event out, before it asks for the effort. |
| `HeldReaders.AFrameWaitsForARequest` | handler.go:1459-1489 | A run from the start, for any command that names another task's output file: the Bash call, its start in the foreground and that task's report are met with as many stop requests as the stopper's own history says, and the report is held up before the one it sets off. |
| `TurnProtocol.OthersLeaveAReaderBe` | handler.go:1459-1464 | No step of the dispatcher, the watchdog or another reader changes where a reader stands. |
| `TurnProtocol.ReaderProgresses` | handler.go:1459-1464 | Under any interleaving each of a reader's own steps takes one mark off its script and nothing else does: a translated frame, or an exit, is done after exactly as many own steps as it has marks. |
| `TurnProtocol.TranslationOpensTheFrame` | handler.go:1514-1516 | Translating is never held up and leaves exactly that frame's script to do. |
| `SharedUsage.EmittedListIs` | translate.go:826-839 | In every run, whatever readers overlap, a result's list as it goes out is the usages of readable assistant frames since the previous result by all readers, overlaid by the calls that landed in the same slots of its array since; it is the turn's own list if and only if each of those is the usage it landed on. |
| `SharedUsage.SomethingLandsIff` | usage.go:50-57 | On a turn that had calls something landed exactly when some reader translated a call between the result's translation and its emission; without one it goes out as translated. |
| `SharedUsage.EmitsExactlyTheTranslationsIff` | handler.go:1514-1516 | Between frames a reader has emitted exactly the concatenation of its frames' translations if and only if nothing that landed on its results before they went out changed them. |
| `SharedUsage.AnotherReadersCallIsListed` | handler.go:1514-1516 | A run of two overlapping readers in which a result goes out listing the other's call in place of its own. |
| `TurnProtocol.RunsKeepInv` | handler.go:1465-1607 | Every run keeps each reader on its script: what it did plus what it has left is the frame-by-frame script. |
| `Watchdog.Harness.AwaitTurnEnd` | handler.go:1618-1679 | A wait kills exactly at the first tick before its end that finds the process alive and silent for the timeout, never without a timeout; then every pending text has gone out in its order, one TURN_IDLE_TIMEOUT last, and the death is marked; otherwise nothing has changed. |
| `Watchdog.WedgedIsKilledInTime` | handler.go:1621-1645 | A process alive and silent since a time is found wedged no later than one interval after max(arming, that time plus the timeout). |
| `Watchdog.AwaitSilentProcess` | handler.go:1618-1673 | So such a wait ends in one kill and one error by then, and never before the timeout has passed since the last activity. |
| `Watchdog.IntervalIsHalf` | handler.go:1625-1629 | There are two checks per timeout, and the interval is min(15 s, timeout / 2), exactly for timeouts of at least 2 ns; at 1 ns it is 15 s. |
| `Watchdog.BusyIsNeverKilled` | handler.go:1640-1643 | A process whose gaps stay under the timeout until it dies or the wait ends is never killed. |
| `Watchdog.ArmingDoesNotResetTheClock` | handler.go:1641-1643 | A process already silent for the timeout is killed at the first tick after arming. |
| `ProcessDeaths.DiedIff` | handler.go:1685-1715 | In every history of spawns, stalls, kills, deaths and reader exits, PROCESS_DIED goes out for a process exactly when its reader, having seen it gone, finds no watchdog mark set since the last spawn. |
| `ProcessDeaths.OneErrorIff` | handler.go:1657-1715 | In every history, a process has exactly one error if and only if the watchdog reported it once and its reader came to no free mark, or never and its reader did. |
| `ProcessDeaths.OneErrorPerDeath` | handler.go:1698-1706 | If stdout closes after the process is gone, its reader is done before the next spawn, it does not end by itself between stall and mark, and a kill takes effect before the next tick, every death has one error: TURN_IDLE_TIMEOUT exactly if it was killed. |
| `ProcessDeaths.EarlyLookIsSilent` | handler.go:1686-1688 | In every history, a process whose reader exits before it is known to be gone is never reported as died. |
| `ProcessDeaths.RespawnBringsASecondError` | handler.go:1088-1089 | A history: a killed process whose reader exits after the next spawn has cleared the mark has both errors. |
| `ProcessDeaths.LateMarkBringsASecondError` | handler.go:1658-1671 | A history: a process that ends by itself after the stall is reported and before the mark has both errors. |
| `ProcessDeaths.EarlyCloseBringsNoError` | process.go:173-175 | A history: a process whose stdout closes just before it is known to be gone has none. |
| `TaskWaiters.FinishedTaskWaiterStopper.Observe` | finished_task_waiters.go:83-139 | After any frame history both maps equal their meaning over that history, and the ids returned are, each once, exactly those it says must stop: the running commands of unanswered calls that name the output file of another task reported completed or failed. |
| `TaskWaiters.FinishedTaskWaiterStopper.ObserveBlocks` | finished_task_waiters.go:89-101 | The command map holds exactly the Bash uses whose latest mention is the use itself, with its command. |
| `TaskWaiters.CommandsHoldTheLatest` | finished_task_waiters.go:89-101 | A Bash call that no later block answers or repeats is held with its command; an answered one, or one never made, is not. |
| `TaskWaiters.FinishedTaskWaiterStopper.StopWatchers` | finished_task_waiters.go:128-136 | In whatever order the map yields them, exactly the running commands that contain the output file are returned and removed. |
| `TaskWaiters.StoppedOncePerStart` | finished_task_waiters.go:129-134 | Between two returns of one id a foreground local_bash start of it was observed. |
| `TaskWaiters.FinishedIsNotStopped` | finished_task_waiters.go:120-121 | The id a notification reports is never among those it stops, nor running after it. |
| `TaskWaiters.WatcherIsStopped` | finished_task_waiters.go:119-137 | For every foreground command that names another task's output file, that task's report, completed or failed, stops exactly that command. |
| `TaskWaiters.WatchesIff` | finished_task_waiters.go:129-132 | Looking the two maps up is the same as asking the history whether a running, unanswered command names the file. |
| `RolloutTail.TailRolloutFile` | rollout.go:158-196 | For any growth of the file and any reads, the lines handed on are the newline-terminated lines of what was read, and they plus the pending bytes are all of it; after an end-of-file read that is all the read could see. |
| `RolloutTail.SplitIsUnique` | rollout.go:143-151 | There is only one way to cut bytes into finished lines and an unfinished rest, so the lines handed on are each once and in order. |
| `RolloutTail.ReadBytes` | rollout.go:176-177 | Through the next newline, or everything visible and an error. |
| `RolloutTail.TrimLine` | rollout.go:198-205 | All trailing newlines and carriage returns go, and nothing else. |
| `StoredEntries.TranslateRolloutEntry` | rollout.go:224-359 | The loop emits the specified per-block events for every entry, unreadable ones none. |
| `StoredEntries.TranslateUserEvent` | import_history.go:136-164 | One prompt with all texts run together, or nothing when they are empty. |
| `StoredEntries.TranslateAssistantEvent` | import_history.go:167-234 | One answer with texts, thinking, tools and their paired results, or nothing when all are empty. |
| `StoredEntries.PairResult` | import_history.go:192-202 | A result fills the latest tool that has no output yet, and only its output and error. |
| `StoredEntries.ToolsGrowBy` | import_history.go:180-202 | In an imported answer each tool use adds a summary without output, and each result gives its text and error to the latest summary that has none, or to nobody. |
| `StoredEntries.UserTranslationsAgree` | rollout.go:238-250 | For every user entry the per-block texts run together are the imported prompt, which is absent exactly when they are empty. |
| `StoredEntries.TerminatorIff` | rollout.go:318-348 | A tailed entry closes with a terminator exactly when it is an assistant message that ended its turn, carrying the whole text, the model and the frame's own token counts. |
| `StoredEntries.AssistantTranslationsAgree` | rollout.go:265-348 | For every assistant entry both translations agree on text, thinking and the tool calls' number, names, inputs and order (an absent input reads as an empty object), and a terminal entry's result carries the imported text, model and token totals. |
| `LiveAndStored.AssistantBlocksAgree` | rollout.go:216-219 | An assistant message shows the same blocks at the same indices live and tailed, except that the tail drops empty texts and thinking and fills in an absent input. |
| `LiveAndStored.ToolResultsAgree` | rollout.go:251-262 | A user message's tool results are the same events in the same order live and tailed. |
| `LiveAndStored.UserTextsAgree` | translate.go:191-199 | For every user message the tail emits each non-empty text; live, under a parent tool use they come as one message, the same texts on lines of their own, and without one not at all. |
| `RuneCut.TruncateAtRuneBoundary` | discover.go:560-574 | For any bytes a prefix within budget ending at the last boundary, which gives up at most three bytes if and only if the budget is at most three or one of its last four positions starts a rune; for valid UTF-8 the longest valid prefix within budget, giving up at most three. |
| `RuneCut.ValidPrefixIff` | discover.go:567-572 | A proper prefix of valid UTF-8 is valid exactly when the byte after it starts a rune. |
| `RuneCut.RuneStartsAreNear` | discover.go:558-559 | Among any four consecutive positions of valid UTF-8 that end at a byte, one starts a rune. |
| `RuneCut.CutStrayContinuations` | discover.go:569-572 | Where the three-byte bound fails: stray continuation bytes are cut to nothing. |
| `JournalMode.SwitchJournalMode` | state.go:90-116 | At most 100 attempts and 99 sleeps under a monotone clock, no sleep that would reach the deadline is begun, it succeeds exactly when some attempt settled on WAL, and otherwise it reports the last attempt's error or mode. |
| `JournalMode.NinetyNineSleepsFit` | state.go:94-106 | The growing sleeps add up to less than the busy timeout exactly up to the 99th. |
| `JournalMode.ExhaustTheBound` | state.go:98-106 | The bound is reached: with a clock only the sleeps advance and no success there are 100 attempts and 99 sleeps. |
| `SpawnFlags.Harness.HandleStart` | handler.go:713-1087 | Every start is remembered before it can fail, each choice overridden only where it sets one, and its spawn, failed or not, carries them: the disabled tools, the allow list, the allowed tools, the settings, effort, model and mode; all earlier spawns still carry what had been given by then. |
| `SpawnFlags.Harness.BuildFlags` | handler.go:781-978 | A spawn disallows exactly the disabled tools, passes an allow list exactly if there is one, and carries the settings, effort, model and mode, each once. |
| `SpawnFlags.Harness.AppendDisallowed` | handler.go:1126-1132 | One flag per disabled tool, in order. |
| `SpawnFlags.Harness.KeepParams` | handler.go:746-779 | A start overrides a choice only if it sets it; an empty tool list is set, an absent one is not. |
| `SpawnFlags.Harness.HandleMessage` | handler.go:1147-1184 | Only a dead process is respawned, and the respawn gives nothing new. |
| `SpawnFlags.Harness.HandleResume` | handler.go:1226-1246 | As for a message; a live process is left alone. |
| `SpawnFlags.Harness.HandleSetModel` | handler.go:1264-1277 | A model is remembered once a live process has been asked for it, even when asking for the effort then fails and an error is returned. |
| `SpawnFlags.Harness.HandleSetEffort` | handler.go:1282-1291 | An effort likewise. |
| `SpawnFlags.Harness.HandleControl` | handler.go:1295-1304 | A control request with a subtype reaches the live process as the control its subtype and payload name, and leaves everything a respawn is built from alone. |
| `SpawnFlags.RespawnKeepsSettingIff` | handler.go:1295-1304 | A respawn sets the model, mode or effort the live process has if and only if, since the last spawn or remembered change of it, the latest control request to name it, if any, named what a respawn sets (and without one, no start that spawned nothing gave another). |
| `SpawnFlags.FlagsSayWhatIsDue` | handler.go:845-978 | What is due for each of these three settings is exactly what a spawn's flags say. |
| `SpawnFlags.FlagsSayWhatWasGiven` | handler.go:845-978 | A flag is among a spawn's exactly if it names the model, mode, effort, settings, allow list or a disabled tool last given (or the default); the allowed tools are those last given. |
| `SpawnFlags.LatestIff` | handler.go:746-779 | What is in force is the last thing given that sets it, and nothing exactly if none did. |
| `SpawnFlags.KeptAreFlags` | handler.go:845-978 | The kept values, kind by kind, are the flags themselves. |
| `SpawnFlags.RespawnForgetsControls` | handler.go:1293-1304 | A run: a start, control requests for a mode and a model, death, resume; the respawn carries the flags of the start. |
| `SpawnFlags.OneModeAlways` | handler.go:873-978 | Every spawn carries exactly one permission mode, and not an empty one. |
| `SpawnFlags.RespawnsKeepWhatIsDue` | handler.go:188-206 | However many respawns later, the flags due are the ones last given. |

## Left out

- Process spawning, pipes, signals, HTTP, the OTLP listener, the sidecar and PTY
  exec: I/O, present only as actions or parameters.
- JSON encoding and decoding, `ndjson`, the message-id tracker, the `msg` types
  and SQLite itself: libraries; content is taken as either well typed throughout
  or unread. The names of the canonical permission modes come from the comments
  and tests that use them, the `msg` package is not part of this model.
- Oneshot mode, configuration and environment parsing, effort reporting, log
  lines, timestamps, transcript directory lookup: no state worth a claim.
- The details of system events, hook events and OTel translators, tool-result
  images: single-branch field copies.
- The routing of requests and session-config payloads to the handlers, and the
  events that answer them: dispatch only.
- `forward`'s backfill of ids and its interleaving with other forwards outside
  the lock: events are appended to one list in the order they are sent.
- AssistantRecovery.Recovery.FlushRecoveredAssistant: its sends are one step, so
  other emits cannot fall between two recovered texts.
- TurnProtocol.ReaderIsHeldUpIff: only the stdin lock is a place to wait. The single
  SQLite connection that `recordChainOnInit` uses, the lock on the bridge's output and
  the locks held for one step are taken within a step, and a write that a full pipe
  blocks (a reader's own to stdin, or any to the bridge's stdout) is a step that ends.
- HeldReaders.CanBeHeldUpIff: which frames stop tasks is the stopper's history
  (`TaskWaiters`), tied to the frames only in `AFrameWaitsForARequest`.
- SharedUsage.EmittedListIs: translating a frame is one step; two readers' unguarded
  appends at the very same time are a data race outside the model.
- ProcessDeaths.OneErrorPerDeath: a kill takes effect at any later time or never, and
  a reader that a shutdown ends reports nothing.
- ColdImport.ColdImportRollouts: the walk of a process no other interferes with; a row
  another records meanwhile can stop it (`ImportIsRefusedIff`).
- Unreadable directories and files that vanish during a walk: a walk is the list
  of files it found.
- Changes of `h.bridgeSessionID` within one process: a process serves one session.
- Parent links forming a chain within a session, and the current id being the last
  rollout: nothing is claimed, since older or unrecorded conversations may be resumed.
- `scripts/tree_hold.py`: its mutual exclusion needs more assumptions than it yields.
- ChainSequences.SessionsStayNumbered: holds under the assumptions above;
  `NumberedThroughoutIff` says exactly when it does without them.
- Watchdog.Harness.AwaitTurnEnd: observes a given number of ticks, since a wait on a busy
  process may never end.
- StreamTranslation.TranslateByType: system and hook events carry their subtype only.
- StreamTranslation.TranslateUserFrame: images in a tool result are left out.
- StreamTranslation.TranslateResult: the model name, durations and turn count are
  copied from the frame, and left out.
- Usage.UsageAggregator.Finalize: the context limit read off `modelUsage` is left out.
- SpawnFlags.Harness.HandleResume: recovering a lost session id from state.db only
  changes which id `--resume` names; the resume flags are a parameter.
- SpawnFlags.Harness.BuildFlags: flags a start passes once and nothing keeps
  (system prompts, directories, debug and the like) are carried as opaque names.
