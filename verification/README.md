# Proofs about the coder's state and protocols

A model in Dafny of the parts of this system that decide something: which learning supersedes which,
what date a day number is, who may touch a memory store and when, what a conversation looks like
before it is sent, what the agent loops append and stop on, how tools are named and found again, how a
stream is cut into lines and frames, how usage adds up, and how a saved store is migrated.

`dafny verify dfyconfig.toml` checks all of it. The files depend on `Text.dfy` (decimal text,
lexicographic order, splitting) and follow the components:

| file | models |
|---|---|
| `EditDistance.dfy`, `Learnings.dfy` | the one-row edit distance, and the reader that folds learnings into slots with it |
| `Calendar.dfy`, `Timestamps.dfy`, `TimestampTexts.dfy` | day numbers and dates, the order of printed timestamps and day keys and what they say, the energy log's window |
| `LearningsFile.dfy` | the learnings file as text |
| `StoreLock.dfy`, `StoreFiles.dfy`, `StoreRuns.dfy`, `StoreRequests.dfy`, `StoreExclusion.dfy` | concurrent updates under the lock map, as interleaved steps: the steps and the locks, what each step keeps of the files, whole runs, what requests ask for, and which stores the lock protects |
| `Transcript.dfy`, `RepairPieces.dfy`, `ToolMatching.dfy`, `Pruning.dfy`, `PrunedSize.dfy` | repairing a message history for an API, where its messages come from, which tool messages match a call afterwards, shrinking a history for a cloud provider, and the size of what is sent |
| `ToolLoop.dfy`, `ToolRounds.dfy` | the bounded loop of streamed turns and tool calls, and what each round appends |
| `LiveContext.dfy`, `Checkpoints.dfy`, `Supervisor.dfy`, `SupervisorRuns.dfy`, `SupervisorPasses.dfy`, `SupervisorEnds.dfy` | the supervisor: live context and persisted transcript side by side, which messages are checkpoints, one pass through the loop, whole runs, what each pass says, and which runs end |
| `ToolNaming.dfy` | MCP tool names: made, split, looked up, matched against permission rows |
| `UsageTap.dfy`, `UsageStats.dfy` | the tap on a proxied stream, and the statistics fold |
| `RunStream.dfy` | the reader of a run's event stream |
| `CoderStore.dfy`, `CoderPointers.dfy` | the migration of the conversation store: where conversations end, and where the active pointers do |

Code that loops or updates state is modelled by methods and classes, each proved equal to a
specification function or to a description that leaves one result; the properties are then lemmas about
that function or description. What comes from outside (model replies, hooks, tool results, JSON parsers,
clocks, abort signals) is an arbitrary input, one record a round where there are rounds. Every lemma
switches Dafny's automatic induction off, so that its body is the whole proof.

## Where the code and its descriptions differ

The model follows the code.

- A tool result right after a turn with calls is copied whatever id it carries; the set of expected ids
  is computed and not read (apps/web/src/lib/chatHelpers.ts:346), so a result can stay that no call
  matches (`ToolMatching.AForeignResultStays`). Every result matches an earlier call exactly when those
  in the blocks of the input do (`ToolMatching.AllMatchedIff`), and one of its own turn's calls exactly
  when that was so before (`ToolMatching.OwnBlocksIff`).
- Repairing twice is not repairing once when a call has an empty id: each repair adds another stand-in.
  `Transcript.IdempotentIffNamed` gives the exact condition.
- The pruning comment speaks of outputs over 1500 characters; the code cuts at more than 1200
  (apps/web/src/lib/chatHelpers.ts:384, apps/web/src/lib/chatHelpers.ts:395).
- Reading the learnings a second time can shrink them further, because fuzzy matching is not transitive
  (`Learnings.RereadIsIdentityIff`, `Learnings.RereadCanShrink`).
- An append to a learnings file whose last line lacks its line break runs into that line
  (`LearningsFile.AppendAddsEntryIff`); an append that fails half-way leaves such a line
  (`StoreRuns.ATornAppendSwallows`).
- The lock of a memory store is keyed by its canonical path so that spellings match
  (desktop/control/src/memstore.rs:215-218), but by the path as given while its directory does not exist, and
  the first write makes it. `StoreExclusion.ExclusiveIff` says exactly for which stores that keeps updates
  apart; a new store whose path is not canonical can lose an append
  (`StoreExclusion.ANewStoreLosesAnAppend`).
- When a request is dropped while the file system renames its rewritten file into place, its guard goes and the
  rename still happens; it then undoes what the next update appended
  (`StoreExclusion.ALateRewriteLosesAnAppend`).
- Day keys sort chronologically through the year 9999 and not further (`Timestamps.DayKeysSortIff`).
- The event reader drops empty data lines in front, which section 9.2.6 of the WHATWG HTML Living
  Standard keeps (`RunStream.DataIsStandardIff`).
- A queued user message that begins like a compaction checkpoint makes the started run and a reload
  disagree (`LiveContext.QueuedStartIff`).
- The step limit does not end every run: one whose summaries stay too long compacts for ever
  (`SupervisorEnds.ALongSummaryLoops`). `SupervisorEnds.NeverEndsIff` says exactly which runs do,
  `SupervisorEnds.MisfitsAreLong` how long a summary that is.
- The migration can lose conversations when a doubly prefixed key comes before its stripped form
  (`CoderStore.AConversationIsLost`, `CoderStore.NothingIsLostIff`).
- When the active workspace is gone, the migration takes over the first workspace's active conversation
  unchecked. It can name none (`CoderPointers.PointersCanDangle`, `CoderPointers.PointersNameEntriesIff`),
  and a second pass can change the store again (`CoderPointers.ASecondPassCanChange`,
  `CoderPointers.SecondPassIff`).
- Names of servers that contain a double underscore or end in an underscore are split wrongly
  (`ToolNaming.SplitRecoversIff`); server names are sanitized so that they never do
  (`ToolNaming.ServerNamesAreSeparable`).

## Model

| member | source | states |
|---|---|---|
| `EditDistance.Levenshtein` | desktop/control/src/memstore.rs:25-44 | the in-place one-row program returns the recursive edit distance of any two strings; its invariants tie `cache`, `distance_b` and `result` to cells of two adjacent rows |
| `EditDistance.DistanceIsLowerBound` | desktop/control/src/memstore.rs:25-44 | no edit script from one string to the other has fewer edits than the distance |
| `EditDistance.DistanceIsAttained` | desktop/control/src/memstore.rs:25-44 | some edit script has exactly that many edits |
| `EditDistance.ZeroIffEqual` | desktop/control/src/memstore.rs:25-44 | distance zero exactly for equal strings |
| `EditDistance.Symmetric` | desktop/control/src/memstore.rs:25-44 | the distance is symmetric |
| `EditDistance.Triangle` | desktop/control/src/memstore.rs:25-44 | the triangle inequality |
| `EditDistance.LengthBounds` | desktop/control/src/memstore.rs:25-44 | between the length difference and the longer length |
| `Learnings.TestKeysMatch` | desktop/control/src/memstore.rs:83-95 | keys of fewer than ten characters and flags match exactly if they are equal; others if eight times their distance is at most either length |
| `Learnings.KeysMatchSymmetric` | desktop/control/src/memstore.rs:83-95 | key matching is reflexive and symmetric |
| `Learnings.ReadLearnings` | desktop/control/src/memstore.rs:46-119 | the result is a reading of the entries: every entry belongs to the earliest slot whose first entry it matches, or opens one; a slot shows the last entry assigned to it; slots stand in the order of first appearance |
| `Learnings.FindSlot` | desktop/control/src/memstore.rs:76-103 | the scan finds the first slot of the entry's topic, or there is none |
| `Learnings.ReadingIsUnique` | desktop/control/src/memstore.rs:60-118 | that description leaves exactly one result for any notion of same topic |
| `Learnings.UnkeyedSurvive` | desktop/control/src/memstore.rs:73-74 | every entry without a topic survives as it is, in a slot it shares with no other entry |
| `Learnings.UnkeyedKeepOrder` | desktop/control/src/memstore.rs:73-74 | and such entries keep their order |
| `Learnings.SlotsAreDistinct` | desktop/control/src/memstore.rs:104-114 | the entries that opened two slots do not match, and slots keep the order in which they were opened |
| `Learnings.SameNamesShareASlot` | desktop/control/src/memstore.rs:60-103 | two entries with the same component, scope and key, not all empty, are in one slot |
| `Learnings.SlotDiameter` | desktop/control/src/memstore.rs:83-103 | any two keys folded into one slot are within a quarter of the representative's length |
| `Learnings.RereadIsIdentityIff` | desktop/control/src/memstore.rs:60-118 | reading the result again changes nothing exactly when no two surviving entries share a topic |
| `Learnings.RereadIsIdentityIffLast` | desktop/control/src/memstore.rs:60-118 | on the entries: that is so exactly when no two entries that are each the last of their slot share a topic |
| `Learnings.RereadCanShrink` | desktop/control/src/memstore.rs:60-118 | there are entries whose reading still has two entries of one topic |
| `Learnings.OneMoreEntry` | desktop/control/src/memstore.rs:60-118 | a further entry takes over the first slot opened for its topic, or comes last, and no other slot changes |
| `Learnings.AppendedIsShown` | desktop/control/src/memstore.rs:60-118 | so an appended learning is always shown and displaces at most one |
| `Calendar.SuccessorDay` | desktop/control/src/memstore.rs:177-188 | every day has a valid Gregorian date, and the next day has the calendar's next date |
| `Calendar.CivilIsCalendar` | desktop/control/src/memstore.rs:177-188 | day n is the date reached by turning n calendar pages from 1970-01-01 |
| `Calendar.DaysOfCivil` | desktop/control/src/memstore.rs:177-188 | counting the days of the date gives the day number back |
| `Calendar.CivilOfDays` | desktop/control/src/memstore.rs:177-188 | a valid date from 1970 on is the date of day n exactly if counting its days gives n |
| `Calendar.DatesInOrder` | desktop/control/src/memstore.rs:177-188 | day numbers and dates are in the same order |
| `Timestamps.FourDigitYears` | desktop/control/src/memstore.rs:177-188 | day numbers below 2,932,897 are exactly those through year 9999 |
| `Timestamps.DayKeysInOrder` | desktop/control/src/memstore.rs:171-174 | through year 9999 day keys compare as text like day numbers and are different for different days |
| `Timestamps.DayKeysSortIff` | desktop/control/src/memstore.rs:171-174 | the keys of all days up to n sort chronologically exactly if day n is not after year 9999 |
| `Timestamps.IsoTextsInOrder` | desktop/control/src/memstore.rs:149-167 | through year 9999 timestamps have one length and sort as text by time |
| `Timestamps.IsoTextIsInjective` | desktop/control/src/memstore.rs:149-167 | two timestamps print alike exactly if they are the same millisecond, in every year |
| `TimestampTexts.DayKeyReads` | desktop/control/src/memstore.rs:171-174 | a day key reads as a valid date, year in at least four digits and month and day in two, and counting days to that date gives the day's number |
| `TimestampTexts.IsoReads` | desktop/control/src/memstore.rs:149-167 | a timestamp is the day key of its day, `T`, hours below 24, minutes and seconds below 60 in two digits and milliseconds in three, and `Z`; read back, they add up to the millisecond |
| `Timestamps.EnergyWindowIsChronological` | desktop/control/src/power.rs:80-87 | the text filter keeps exactly the logged days that lie numerically between cutoff and today, with their values |
| `LearningsFile.AppendAddsEntryIff` | desktop/control/src/memstore.rs:327-333 | an append adds its own entry and nothing else exactly when the file ends in a line break or blanks after one; afterwards it does |
| `LearningsFile.DropLearning` | desktop/control/src/memstore.rs:344-361 | the rewriting loop produces the text of the entries kept |
| `LearningsFile.DropRemovesExactly` | desktop/control/src/memstore.rs:337-362 | a drop removes exactly the entries carrying the id and keeps the others, unparseable ones too, in order |
| `StoreLock.RetainedIff` | desktop/control/src/memstore.rs:227 | a lock survives eviction exactly when some task still holds its handle |
| `StoreLock.LookUpEvicts` | desktop/control/src/memstore.rs:226-230 | after a look-up the map has exactly the keys under which tasks hold handles |
| `StoreLock.NextLocks` | desktop/control/src/memstore.rs:219-231 | every step (lookup with eviction under the canonical or the given path, acquire, making the directory, read, write, error, append broken off half-way, dropped waiter, request dropped during a write, late write, release, handle drop) keeps lock map, handles, guards and directories in order |
| `StoreFiles.NextFiles` | desktop/control/src/memstore.rs:251-365 | at a store whose updates agree on a lock, every step but a late write keeps files, log and open turn in agreement |
| `StoreFiles.TornKeeps` | desktop/control/src/memstore.rs:327-333 | an append that breaks off is logged as part of its turn, and files and log still agree |
| `StoreRuns.LocksHold` | desktop/control/src/memstore.rs:219-365 | whatever the schedule, lock map, handles, guards and directories are in order |
| `StoreRuns.FilesHold` | desktop/control/src/memstore.rs:251-365 | and files and log agree at every store whose updates agree on a lock and where nothing lands late |
| `StoreLock.MutualExclusion` | desktop/control/src/memstore.rs:219-231 | if the updates of a store agree on a lock, its live handles are the same lock, and at most one task is inside |
| `StoreExclusion.ExclusiveIff` | desktop/control/src/memstore.rs:215-231 | in no run are two updates inside a store exactly if any two of them agree on a lock: the directory exists at the start, or both name it by its canonical path, or by one path and neither writes |
| `StoreExclusion.ANewStoreLosesAnAppend` | desktop/control/src/memstore.rs:219-231 | in a new store with another canonical path, a run in which a finished append is gone though nobody asked to drop it |
| `StoreExclusion.ALateRewriteLosesAnAppend` | desktop/control/src/lib.rs:524-557 | in an existing store, such a run in which the rewrite of a dropped request lands late |
| `StoreExclusion.LandsOnce` | desktop/control/src/lib.rs:524-557 | a late rewrite leaves the text it carries in the file and the directory made, moves no other task, and does not land again |
| `StoreRuns.DropSeesItsReading` | desktop/control/src/memstore.rs:337-362 | in every run of such a store in which nothing lands late, whenever a drop is about to write, what it has read is the file as it is |
| `StoreRuns.RunsAreSerializable` | desktop/control/src/memstore.rs:251-365 | in every run, if a store's updates agree on a lock and nothing lands late there, its files are the updates' effects replayed one task after the other, each task at most once, and everyone who finished without error with their whole plan |
| `StoreRuns.FilesAreEditedLists` | desktop/control/src/memstore.rs:251-365 | if also no append there breaks off, the entries of the store are the initial ones edited by those effects |
| `StoreRuns.AppendSurvives` | desktop/control/src/memstore.rs:300-362 | an appended entry is removed only by a later drop of its own id |
| `StoreRuns.NoAppendIsLost` | desktop/control/src/memstore.rs:251-365 | if a store's updates agree on a lock, no write of a dropped request lands late there and no append breaks off there, then in every run a finished update's line is in the store unless somebody asked to drop that line's id |
| `StoreRuns.BreaksOff` | desktop/control/src/memstore.rs:327-333 | an append can break off anywhere in its line; that part is then in the file and the guard is free |
| `StoreRuns.ATornAppendSwallows` | desktop/control/src/memstore.rs:327-333 | after an append that broke off anywhere in its line, the next append does not add its own entry |
| `StoreRequests.RequestsAreJobs` | desktop/control/src/memstore.rs:256-339 | a posted bank is written first and once, whatever the learning; a learning of 1 to 10,000 trimmed characters is appended once; a posted id is dropped once, last, unless an improper learning stopped the request |
| `StoreRequests.BankIsLastWritten` | desktop/control/src/memstore.rs:259-261 | in every run, if a store's updates agree on a lock and nothing lands late there, its bank is the last one a logged turn wrote, a finished update has written the bank it posts, and the bank is as it was if no turn wrote one |
| `Transcript.Sanitize` | apps/web/src/lib/chatHelpers.ts:311-374 | the loop with its look-back and look-ahead computes the repair as a function of the history |
| `Transcript.FindCall` | apps/web/src/lib/chatHelpers.ts:320-330 | the look-back finds a call exactly if one was made since the last user or system message |
| `Transcript.RepairIsAccepted` | apps/web/src/lib/chatHelpers.ts:311-381 | whatever the history, its repair is one an API accepts; with non-empty ids only, if all calls have them |
| `Transcript.SanitizedIsOrdered` | apps/web/src/lib/chatHelpers.ts:318-374 | for every input: calls are answered by id in the tool messages right after their turn; every tool message has such a turn before it with no user or system message between, and outside the turn's block answers one of its calls |
| `ToolMatching.AllMatchedIff` | apps/web/src/lib/chatHelpers.ts:304-374 | afterwards every tool message has a matching call before it, with no user or system message between, exactly when in the input each one right after a calling turn names a call open there |
| `ToolMatching.MatchedMeans` | apps/web/src/lib/chatHelpers.ts:318-330 | scanning with the set of open ids finds exactly the tool messages that match a call |
| `ToolMatching.OwnBlocksIff` | apps/web/src/lib/chatHelpers.ts:340-371 | afterwards the tool messages right after each calling turn name its own calls exactly when they did before |
| `ToolMatching.OwnBlocksMatch` | apps/web/src/lib/chatHelpers.ts:304-374 | and then every tool message matches a call |
| `ToolMatching.AForeignResultStays` | apps/web/src/lib/chatHelpers.ts:340-358 | a history whose repair keeps a tool message that matches no call |
| `Transcript.UnchangedIffAccepted` | apps/web/src/lib/chatHelpers.ts:311-381 | the repair is the identity exactly on the accepted histories |
| `Transcript.IdempotentIffNamed` | apps/web/src/lib/chatHelpers.ts:360-371 | a second repair changes nothing exactly when no call has an empty id |
| `RepairPieces.NothingIsLost` | apps/web/src/lib/chatHelpers.ts:311-381 | without the stand-ins the output is the input in order, with only orphaned tool messages changed: into collapsed user notes that end with their text behind a line naming the tool (`tool` without a name); a stand-in is a tool message with the id and name of a call the history makes |
| `Transcript.AcceptedConcat` | apps/web/src/lib/chatHelpers.ts:311-381 | a history that continues without a tool message is accepted exactly if both parts are |
| `Pruning.KeepMiddle` | apps/web/src/lib/chatHelpers.ts:420-426 | the loop keeps the end of the middle from where the budget cuts it: what is kept fits, and one turn more would not |
| `Pruning.DropOldTurns` | apps/web/src/lib/chatHelpers.ts:407-437 | of a text that is too long the first two and last four messages stay, and between them a notice with the number of turns gone and the input's own messages before the last four, as many as fit; any other stays as it is |
| `Pruning.PruneContextForCloud` | apps/web/src/lib/chatHelpers.ts:388-440 | the whole of it, then the repair |
| `Pruning.SomethingIsOmitted` | apps/web/src/lib/chatHelpers.ts:428-429 | where middle turns are dropped, the count is never zero |
| `Pruning.CutIsLongest` | apps/web/src/lib/chatHelpers.ts:420-426 | no longer end of the middle fits in 600,000 characters, and the cut is unique |
| `Pruning.KeepsEnough` | apps/web/src/lib/chatHelpers.ts:420-437 | with the newest of the dropped turns what is left would exceed the 600,000 characters |
| `Pruning.ShortenedIsShorter` | apps/web/src/lib/chatHelpers.ts:395-403 | cutting a text makes it strictly shorter, keeps 600 characters of its start and 300 of its end, and says between them how many are gone |
| `Pruning.ShortenOldShrinks` | apps/web/src/lib/chatHelpers.ts:391-405 | exactly the long texts before the last four messages get shorter, and nothing else changes |
| `Pruning.PrunedFits` | apps/web/src/lib/chatHelpers.ts:407-437 | what is left fits the budget with the notice, unless the six fixed messages alone exceed it; then no middle turn is kept |
| `PrunedSize.RepairedChars` | apps/web/src/lib/chatHelpers.ts:311-374 | the repair of any history is longer by exactly its stand-ins and what its notes say in front |
| `PrunedSize.NothingAddedIff` | apps/web/src/lib/chatHelpers.ts:311-374 | that is nothing exactly for the accepted histories |
| `PrunedSize.SentFits` | apps/web/src/lib/chatHelpers.ts:407-440 | so what is sent fits the budget with the notice, the stand-ins and the notes, unless the six fixed messages alone exceed it |
| `ToolLoop.ExecuteToolCalls` | apps/web/src/lib/agentLoop.ts:173-196 | one answer to each call, in order, with its id and name: what a registered tool's handler returns, the error JSON of what it throws, or the error JSON naming a tool that is not registered, whatever its handler would do |
| `ToolLoop.RunToolLoop` | apps/web/src/lib/agentLoop.ts:446-533 | the result is the run that the inputs script: it goes on until a round stops it or the budget is spent, its messages are what the rounds append, its requests are the messages at each round, and the reported batches add up to what was added |
| `ToolLoop.AnswerTurn` | apps/web/src/lib/agentLoop.ts:485-530 | a reply appends the assistant turn, the injected messages and the answers or the correction, and stops as the hook says |
| `ToolRounds.RunReads` | apps/web/src/lib/agentLoop.ts:446-533 | the result is the initial messages and the rounds, each its context note, the reply with the hook's text and messages, and then the answers, the correction naming the tools, or nothing |
| `ToolRounds.RequestReads` | apps/web/src/lib/agentLoop.ts:456-471 | the k-th request is the messages up to round k with its context note |
| `ToolRounds.RunStopsAs` | apps/web/src/lib/agentLoop.ts:456-533 | the loop goes on after every round but the last, and stops there for the reason reported |
| `ToolLoop.RequestsGrow` | apps/web/src/lib/agentLoop.ts:446-533 | each request is a prefix of every later one and of the result; at most maxSteps requests are sent |
| `ToolLoop.IntactIffTidy` | apps/web/src/lib/agentLoop.ts:446-533 | from a fixed point of the repair, the result and each request is a fixed point exactly when no round before it left calls pending |
| `ToolLoop.RoundKeepsIntact` | apps/web/src/lib/agentLoop.ts:456-531 | a round keeps any transcript a fixed point exactly when its turn leaves no call pending |
| `ToolLoop.WireExtends` | apps/web/src/lib/agentLoop.ts:446-533 | in such a run the repaired requests extend each other too |
| `Checkpoints.CheckpointIff` | apps/web/src/lib/agentLoop.ts:43-48 | a message reads as a checkpoint exactly if it is titled so, or is a user message that begins, after white space, with the tag or the preamble |
| `LiveContext.LoadContext` | apps/web/src/lib/agentLoop.ts:53-58 | loading gives the transcript from its last checkpoint on |
| `LiveContext.ContextAppend` | apps/web/src/lib/agentLoop.ts:43-58 | messages that are no checkpoints are appended to what loading gives |
| `LiveContext.QueuedStartIff` | apps/web/src/hooks/useCoderAgentLoop.ts:728-768 | a queued run starts from what a reload would give exactly when its message does not read as a checkpoint |
| `Supervisor.StreamWithRetries` | apps/web/src/hooks/useCoderAgentLoop.ts:451-506 | the first of at most three attempts that yields a turn |
| `Supervisor.Head` | apps/web/src/hooks/useCoderAgentLoop.ts:301-701 | one pass through the loop: compaction, step limit, context note, packing, stream, reply, humanize, tools, continuation and the two gates, with every branch's effect on both lists and the counters |
| `SupervisorRuns.RunAgent` | apps/web/src/hooks/useCoderAgentLoop.ts:301-711 | a run is its passes in a row, each from what the last one left, until one stops it; the requests are what those passes sent |
| `LiveContext.CompactKeepsSync` | apps/web/src/hooks/useCoderAgentLoop.ts:304-331 | compaction keeps the transcript loading to the live context |
| `LiveContext.PackKeepsSync` | apps/web/src/hooks/useCoderAgentLoop.ts:426-436 | so does replacing packed message objects in both |
| `LiveContext.RewriteKeepsSync` | apps/web/src/hooks/useCoderAgentLoop.ts:560-591 | so does replacing the humanized reply, and nothing before it changes |
| `Supervisor.OwnMessagesArePlain` | apps/web/src/hooks/useCoderAgentLoop.ts:612-684 | no notice, note or nudge the run writes reads as a checkpoint, whatever text it carries |
| `Supervisor.PassKeeps` | apps/web/src/hooks/useCoderAgentLoop.ts:301-701 | a pass keeps the budgets, counts a step exactly when it sends, keeps the transcript loading to the live context unless it ends the run, and keeps what it sent |
| `SupervisorPasses.PassSays` | apps/web/src/hooks/useCoderAgentLoop.ts:301-701 | what a pass does, without its code: a request is the live context with the context note and packed tool messages; a turn adds the reply, humanized if the gate has another text, then exactly the tool messages of its calls, or one continuation, check or critic note with its text, in that order of precedence, or nothing; and the counters, the notices of the other cases and the reason to stop |
| `SupervisorPasses.RunSays` | apps/web/src/hooks/useCoderAgentLoop.ts:301-711 | and so from head to head of every run, with the requests it sends and the outcome it reports |
| `SupervisorRuns.EveryHeadReloads` | apps/web/src/hooks/useCoderAgentLoop.ts:301-701 | at every head of the loop, loading the transcript gives the live context |
| `SupervisorRuns.BudgetsHold` | apps/web/src/hooks/useCoderAgentLoop.ts:273-371 | at every head, steps, repairs, critic rounds and continuations are within their limits |
| `SupervisorRuns.BudgetsHoldAtTheEnd` | apps/web/src/hooks/useCoderAgentLoop.ts:301-711 | and so they are at the end |
| `SupervisorRuns.RequestsExtend` | apps/web/src/hooks/useCoderAgentLoop.ts:405-437 | without compaction or packing between them, a later request extends an earlier one |
| `SupervisorEnds.RunsEnd` | apps/web/src/hooks/useCoderAgentLoop.ts:301-371 | a run ends within two heads a step, two more, and one more for every summary received that is over budget by itself |
| `SupervisorEnds.WatchShowsHeads` | apps/web/src/hooks/useCoderAgentLoop.ts:301-711 | watching a run to a horizon shows its heads, and none after the one that stops it |
| `SupervisorEnds.NeverEndsIff` | apps/web/src/hooks/useCoderAgentLoop.ts:304-371 | a run never ends exactly when it gets to a head over budget from which on nobody interferes and every summary received is over budget by itself |
| `SupervisorEnds.MisfitsAreLong` | apps/web/src/hooks/useCoderAgentLoop.ts:263-295 | with the client's estimator and framing, those are exactly the summaries from a certain trimmed length on |
| `SupervisorEnds.EstimateAddsUp` | apps/web/src/hooks/useCoderAgentLoop.ts:287-295 | every message adds its text and its serialized calls to the system share; four characters are a token, rounded up |
| `SupervisorEnds.LongSummariesLoop` | apps/web/src/hooks/useCoderAgentLoop.ts:287-332 | with the client's estimator, a run that starts over budget and gets only summaries of four characters a token of its context compacts for ever |
| `SupervisorEnds.ALongSummaryLoops` | apps/web/src/hooks/useCoderAgentLoop.ts:263-332 | with a context of 2,048 tokens and summaries of 7,000 characters, a run that starts over budget never ends |
| `SupervisorEnds.AShortSummaryEnds` | apps/web/src/hooks/useCoderAgentLoop.ts:263-332 | with a short summary every run of that client has at most 82 heads |
| `ToolNaming.ServerNameUnchangedIff` | desktop/control/src/mcp.rs:249-253 | a server name stays as it is exactly if it consists of letters, digits and dashes |
| `ToolNaming.ServerNameConcat` | desktop/control/src/mcp.rs:249-253 | dropping the other characters works character by character |
| `ToolNaming.ServerNameHas` | desktop/control/src/mcp.rs:249-253 | of a server name exactly the letters, digits and dashes are left, and nothing is put in |
| `ToolNaming.SanitizeToolName` | desktop/control/src/mcp.rs:258-276 | one to 56 allowed characters; of a non-empty name the first 56, with only disallowed ones replaced |
| `ToolNaming.ToolNameAt` | desktop/control/src/mcp.rs:258-276 | letters, digits, underscores and dashes stay where they are, anything else becomes an underscore |
| `ToolNaming.ServerNamesAreSeparable` | desktop/control/src/mcp.rs:246-253 | a sanitized server name can be split off again |
| `ToolNaming.SplittersAgree` | apps/web/src/lib/coderTools.ts:560-566 | the web client and the control plane split every name alike |
| `ToolNaming.SplitRecoversIff` | desktop/control/src/mcp.rs:282-288 | splitting a mangled name gives its server and tool back exactly for the separable server names |
| `ToolNaming.SplitThenMangle` | desktop/control/src/mcp.rs:282-288 | the parts of a split name put together are the name, for every name that splits |
| `ToolNaming.ServersNeverCollide` | desktop/control/src/mcp.rs:293-319 | equal names come from the same server and tool part |
| `ToolNaming.FreeName` | desktop/control/src/mcp.rs:298-306 | the suffix loop ends on every set of used names, with the first free name |
| `ToolNaming.MangleTools` | desktop/control/src/mcp.rs:293-319 | each definition keeps its tool and takes the first name the ones before it left free |
| `ToolNaming.NamesAreDistinct` | desktop/control/src/mcp.rs:293-319 | the names of a server's tools are pairwise different |
| `ToolNaming.NamesAreMangled` | desktop/control/src/mcp.rs:293-319 | each carries its server's prefix and a non-empty tool part |
| `ToolNaming.LookupReachesItsTool` | desktop/control/src/mcp.rs:1283-1314 | looking a name up as a call does reaches exactly the server and tool it was made for |
| `ToolNaming.TierOfServersTool` | apps/web/src/lib/coderTools.ts:570-588 | a mangled tool is governed by its own row, then its server's, then allowed |
| `ToolNaming.TiersAgree` | apps/web/src/lib/coderTools.ts:575-588 | for all rows and names the client and the control plane (desktop/control/src/coder/common.rs:233-245) come to the same tier |
| `ToolNaming.DeletedServerIsAllowed` | desktop/control/src/mcp.rs:1139-1147 | after a server is deleted none of its permissions is left |
| `ToolNaming.OtherServersKeepTheirTiers` | desktop/control/src/mcp.rs:1139-1147 | and the permissions of every other server's tools are as before |
| `ToolNaming.OtherToolsKeepTheirTiers` | desktop/control/src/mcp.rs:1139-1147 | nor do those of tools that are no server's change |
| `UsageTap.UsageAccumulator.Feed` | desktop/control/src/usage.rs:442-468 | the buffer and the reading after a chunk: complete lines are taken in, the rest is kept, the valve cuts |
| `UsageTap.UsageAccumulator.Finish` | desktop/control/src/usage.rs:470-475 | the rest is taken in and the buffer is empty |
| `UsageTap.FedReads` | desktop/control/src/usage.rs:441-468 | however buffer and chunk are cut into complete lines and a rest: the lines are taken in, in order; a rest of at most 32 MiB stays buffered, a longer one is taken in as well and its last 1 MiB stays |
| `UsageTap.ChunkingDoesNotMatter` | desktop/control/src/usage.rs:441-468 | if no line passes the valve, the state after any chunks is that of the concatenated stream |
| `UsageTap.FinishTakesEverything` | desktop/control/src/usage.rs:470-475 | at the end every line of the stream has been taken in once, in order |
| `UsageTap.TapResponse` | desktop/control/src/usage.rs:544-558 | a whole response, fed in any chunks and finished, reads as its lines do |
| `UsageTap.BufferStaysSmall` | desktop/control/src/usage.rs:449-467 | for every stream the buffer stays within the limit and holds no line break |
| `UsageTap.LastOneWins` | desktop/control/src/usage.rs:477-505 | the usage, timings and model logged are each those of the last line that carries any |
| `UsageTap.CharsAddUp` | desktop/control/src/usage.rs:506-518 | the generated characters are the sum over the lines |
| `UsageStats.Aggregate` | desktop/control/src/usage.rs:294-359 | the loop computes the fold of the events |
| `UsageStats.FoldCounts` | desktop/control/src/usage.rs:294-359 | what each total, each model's number and each of a day's numbers sums |
| `UsageStats.SplitsSumToTotals` | desktop/control/src/usage.rs:342-358 | per-model tokens sum to the total usage, and each day's split to that day's tokens |
| `UsageStats.DaysSumToTotalIff` | desktop/control/src/usage.rs:342-358 | the days' tokens sum to the total usage exactly when no event without a day has tokens |
| `UsageStats.FoldPartition` | desktop/control/src/usage.rs:294-359 | the folds over any predicate and its complement add up to the whole, in every total, both speed accumulators, each model's and all of a day's numbers |
| `UsageStats.LocalPlusRemoteIsAll` | desktop/control/src/usage.rs:234-271 | local and remote results add up to the unfiltered one, in all those numbers |
| `UsageStats.SelectedHas` | desktop/control/src/usage.rs:233-271 | which events a request sees: those of its window, of these the remote or the local ones, by the source logged or else by the model's name |
| `UsageStats.SpeedsCount` | desktop/control/src/usage.rs:305-341 | the speed accumulators sum the uncached prompt tokens and the generated tokens that have a positive speed, and their seconds |
| `UsageStats.AveragesAreBetween` | desktop/control/src/usage.rs:370-379 | an average speed is present exactly when some event contributes, and lies between any bounds on the contributing speeds |
| `RunStream.FrameData` | apps/web/src/lib/agentRuns.ts:384-391 | the loop gathers the values of the data lines |
| `RunStream.DataOfLine` | apps/web/src/lib/agentRuns.ts:387-390 | a `data:` line carries what follows the colon without one space; no other line carries anything |
| `RunStream.FrameCarries` | apps/web/src/lib/agentRuns.ts:384-397 | a frame's event is what its values parse to, joined by line breaks, if the first is not empty |
| `RunStream.EmptyFrame` | apps/web/src/lib/agentRuns.ts:391 | and none if all of them are empty |
| `RunStream.DataIsStandardIff` | apps/web/src/lib/agentRuns.ts:384-391 | that is the standard's data buffer exactly if there is one value at most or the first is not empty |
| `RunStream.FramesConcat` | apps/web/src/lib/agentRuns.ts:356-360 | more text leaves the frames so far alone, also when it completes a separator |
| `RunStream.Stream.Consume` | apps/web/src/lib/agentRuns.ts:331-381 | what is delivered is what the text read so far delivers, and reading stops at the end, the last event or when closed |
| `RunStream.ChunkingDoesNotShow` | apps/web/src/lib/agentRuns.ts:346-377 | how reads cut the text does not show |
| `RunStream.ReadDelivers` | apps/web/src/lib/agentRuns.ts:354-375 | delivered are the events through the first `done` or `error`, at most one of them as snapshot, and nothing after |
| `CoderStore.StripExtPrefix` | apps/web/src/lib/coderStore.ts:91-101 | a path changes exactly if it has an extended-length prefix, and then gets shorter |
| `CoderStore.StrippingUndoesPrefixing` | apps/web/src/lib/coderStore.ts:91-101 | a path behind any of the three prefixes comes back as it was, a network share with two leading backslashes and backslashes throughout |
| `CoderStore.Merge` | apps/web/src/lib/coderStore.ts:134-142 | the merging loop: the twin's conversations win, the others are appended to the order |
| `CoderStore.NormalizeStore` | apps/web/src/lib/coderStore.ts:118-156 | the loop over the entries as they were, rewriting the store meanwhile, and the choice of the active pointers |
| `CoderStore.WhereConversationsEnd` | apps/web/src/lib/coderStore.ts:125-143 | a key ends with exactly the conversations of the workspaces that strip to it and that no later key overtakes |
| `CoderStore.SpellingsAreGathered` | apps/web/src/lib/coderStore.ts:125-143 | without doubly prefixed keys each plain workspace ends with the union over all its spellings, and no key is left prefixed |
| `CoderStore.FirstHolderWins` | apps/web/src/lib/coderStore.ts:134-141 | of equal ids the plain workspace's conversation wins, then the earliest spelling's |
| `CoderStore.NothingIsLostIff` | apps/web/src/lib/coderStore.ts:125-143 | every conversation reaches its plain workspace exactly when each one of an overtaken workspace comes again |
| `CoderStore.AConversationIsLost` | apps/web/src/lib/coderStore.ts:125-143 | a store in which one is lost |
| `CoderStore.PlainWorkspaceKeepsItsOwn` | apps/web/src/lib/coderStore.ts:134-142 | an existing plain workspace keeps its conversations, the front of its order and its permissions |
| `CoderPointers.PointersAre` | apps/web/src/lib/coderStore.ts:144-154 | the active workspace is the stripped old one if it has an entry, otherwise the first key of the new order, otherwise empty; the active conversation is the old one if the old workspace stayed and has it, otherwise the entry's own (checked only where the old workspace stayed), otherwise its first |
| `CoderPointers.PointersNameEntriesIff` | apps/web/src/lib/coderStore.ts:144-154 | orders stay duplicate-free enumerations; the active pointers name entries exactly when in the store before some entry that nothing overtakes strips to the active workspace, or the fallback key is reached by several entries or by one whose active conversation exists or was never set |
| `CoderPointers.FallbackIsFirst` | apps/web/src/lib/coderStore.ts:125-147 | the first key afterwards is the first plain key before, else the first one that nothing overtakes, stripped |
| `CoderPointers.PointersCanDangle` | apps/web/src/lib/coderStore.ts:144-154 | a store whose pointers name no conversation afterwards |
| `CoderPointers.ValidPointersStay` | apps/web/src/lib/coderStore.ts:144-154 | a workspace and conversation that are there stay the active ones |
| `CoderPointers.SecondPassIff` | apps/web/src/lib/coderStore.ts:118-156 | a second pass changes nothing exactly when in the store before no key that nothing overtakes strips to a prefixed one, and the active workspace is reached, or the fallback key is reached by several entries or by one whose active conversation is set and exists |
| `CoderPointers.ASecondPassCanChange` | apps/web/src/lib/coderStore.ts:118-156 | a well-formed store that a second pass changes |
| `CoderPointers.WellFormedStoresSettle` | apps/web/src/lib/coderStore.ts:118-156 | a store whose workspaces all have an active conversation that exists, or none to have, and that has no doubly prefixed keys, is so afterwards, its pointers name entries, and a second pass changes nothing |

## Left out

- HTTP handlers, processes, files on disk, timers, permissions of files and React rendering: nothing in them to decide.
- JSON: parsers and serializers are arbitrary functions of a line or a text; that a serialized record is one line without white space around it is a condition of the lemmas about appends.
- The MCP connection lifecycle and its backoff, `handleToolCalls`, `packForRequest`, `humanizePassText`, the critic and the checks: their results are inputs. Tool handlers are only taken to answer with tool messages, packing only to replace contents of tool messages in place; a handler that throws out of the loop is not modelled.
- `RunStream.loop` (reconnecting, resynchronizing): timing and fetches.
- How a path is canonicalized, the HTTP answers and the file modes in the memory store; the bank file is one value. That directories are removed by somebody else, and that a store is renamed once from the slug of its prefixed path (desktop/control/src/coder/memory.rs:87-97), are no steps.
- StoreLock.NextLocks: lock map, handles and guards are a state machine over values, so the sharing of one mutex object by its handles appears as equal lock numbers.
- StoreRuns.NoAppendIsLost: the file is taken to end in a line break at the start; `AppendAddsEntryIff` says what happens otherwise.
- StoreLock.Next: the bank file and the rewritten learnings file are replaced in one step or not at all, as their atomic write does; only appends can break off half-way. What a dropped request leaves to the file system is one write.
- Numbers: integers are unbounded (no 64-bit wrap is reached by a millisecond clock), speeds and energy are real numbers, cloud prices and costs are not modelled.
- Text: characters stand for the units each language counts, that is, UTF-16 units in the web client and code points in the control plane; the loss of a half surrogate pair at a cut is not modelled.
- ToolLoop.RunToolLoop: attachments, reasoning text, usage numbers and the finish reason are not part of messages.
- Supervisor.Head: of the fixed notices only the opening words are kept, which is what decides whether a message reads as a checkpoint; the log, the read-path sets and the git refreshes are not modelled.
- SupervisorRuns.RunAgent: the loop is watched up to a given number of heads, because it need not end.
- CoderStore.NormalizeStore: objects are values, so that setting the active conversation also shows in the store passed in is not captured; keys that look like array indices keep their place here, while JavaScript moves them to the front; names inherited from `Object.prototype` are not keys.
- ToolNaming.MangleTools: input schemas are not part of a definition.
- UsageTap.TapResponse: errors of the upstream and timing are not modelled.
- Download, upgrade and conversion jobs, GPU and size parsing, prompts, presets and formatting: they would add only easy members.
