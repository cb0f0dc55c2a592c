# Durable control plane: a Dafny model

This project models the part of the control plane that keeps promises over
whole runs: the control journal, idempotent command execution and compaction in
the control runtime, the durable snapshot folds, pane queues and takeovers,
approvals, leases, the browser provider broker, the lock on task credentials,
and two decision procedures (the bounded JSON walk and `cfg` implication).

Objects that update fields are classes whose methods are proved to take the
step that a function on values prescribes. Code that awaits is a state machine:
a step is what happens between two awaits, or the completion of one system
call, and a process may die between any two steps. The properties are proved
about every run of these steps.

| Files | What they hold |
|---|---|
| `Events`, `JsMap` | the event vocabulary; JavaScript's insertion-ordered map and sorting by sequence |
| `JournalFormat`, `JournalCodec`, `JournalModel`, `ControlJournal` | the journal's bytes and replay, and an encoder with all it relies on; append, rollback, repair, compaction and reopening under faults; the journal object |
| `Folds`, `Recovery`, `DurableRecords` | receipts, completed and open transactions folded over successive snapshots; restart recovery; all of them told over the events |
| `RuntimeLog`, `RuntimeModel`, `RuntimeInvariant`, `RuntimeSteps`, `Runtime`, `RuntimeRuns`, `RuntimeRetries`, `RuntimeServes`, `RuntimeCompaction` | submit, lookup, execution, sidecar publication, compaction attempts, crashes and restarts; that commands are served and compactions go through |
| `Dispatch` | which failures of a command after its request nothing catches |
| `DurableSide` | the runtime's picture of its journal is what the journal does |
| `PaneQueues`, `PaneTurns`, `LaneLeases` | queue objects, chained commands and effects, takeover preemption, pruning; which entries reach their handlers; lane revisions |
| `Actions`, `Approvals`, `ApprovalLaws`, `ApprovalStore`, `ApprovalGate`, `ApprovalPath` | the policy on actions; the approval store on values, call by call, and as an object; from a submitted action to its handler call, and what each check lets through |
| `CapabilityLeases`, `ProviderBroker`, `BrokerLaws`, `BrowserBroker` | capability leases; effects in flight, tabs and the resource lock |
| `TaskLock`, `TaskLockRun`, `TaskLockWait`, `CredentialCreation` | the mutation lock with recovery claims; publishing credentials by hard link |
| `BoundedJson`, `CfgGates` | the walk over an object graph; implication between `cfg` predicates |

## What the proofs found out

Where a promise does not hold of the code as it stands, the project keeps the
code, shows a run that breaks it, and proves exactly when it holds.

- **Torn append, then a compaction that renames and fails.** While a torn
  length is still remembered this is safe exactly when the rewritten file does
  not start earlier than the file on disk (`RenameThenFailSafeIff`); otherwise
  the next append cuts committed bytes (`UnsafeRenameLosesBytes`), and allowed
  steps of the journal lead there (`UnsafeRenameIsReached`). The runtime's
  compaction targets never go back (`TargetsNeverGoBack`), so it stays safe.
- **Failures nothing catches.** Once its request is journaled a command can still
  fail where no `catch` ends it, so that no terminal event follows and a retry is
  admitted again. That is possible exactly for takeovers, for delegations by a
  human (an invalid expiry, or `lease.delegated` not appended), for prompts and
  inputs that name no pane (their promise is returned, not awaited, inside the
  `try`), and for pane actions without an action (`EscapesIff`). These are the
  unguarded commands below.
- **At most once.** In every run a plain command's handler is invoked no more often
  than the command was requested, and that is at most once, plus once for every
  terminal event that was decided and not committed, plus once for every time an
  unguarded command was given up (`AtMostOnce`). The bound is reached
  (`BoundIsReached`). An unguarded command can be carried out twice with every
  terminal event committed (`GivenUpRunsTwice`). So it runs at most once in all
  runs with at most `n` terminal events lost exactly if `n` is zero and the
  command is guarded (`AtMostOnceIff`).
- **An outcome that changes.** Recovery ends every open command, told apart by
  command id and key, although the key may have ended under another id. So after
  an attempt that was lost and a retry under a fresh id, a restart replaces the
  durable and answered outcome by "unknown". The attempt may have been lost with
  its terminal event or, for an unguarded command, without any terminal event lost
  (`OutcomeCanChange`). A plain key keeps its outcome in every run in which no
  attempt was lost (`OutcomeIsKept`), in all runs with at most `n` terminal events
  lost exactly if `n` is zero and the command is guarded (`OutcomeKeptIff`,
  `PromisesKeptIff`), and in every run whose retries repeat the command id
  (`SameIdKeepsOutcome`).
- **A delegation that throws.** With a duration that gives no valid expiry a
  delegation fails after it has raised the pane's revision: the earlier lease stays
  in force as it was and the raised revision is never granted
  (`ThrownChangesNothing`).
- **A retry that fails.** A retry of an ended plain command whose sidecar can be
  read fails exactly under the condition of `RetryFailsIff`. That happens when its
  request is compacted away while it runs and its outcome finds the dirty map full
  (`RetryCanFail`).
- **A start refused for good.** If the process dies between a terminal event and
  the publication of its outcome, no later start serves: for a plain command when
  its request was compacted away while it ran (`PlainCanBlock`), for a surface
  command at once (`SurfaceCanBlock`), and for one that ends a second time when
  the sidecar still tells the first outcome (`DyingBeforePublicationBlocks`).
  Which dead processes can be started again is stated exactly by
  `RestartServesIff`.
- **The mutation lock.** A waiter reads the lock record and then the recovery
  claim. If the directory is replaced in between, it can take a live process's
  claim for a stale one: a mismatched read. The lock is exclusive in every run
  without one, and every mismatched read can be continued to two holders
  (`ExclusiveIffMatched`, `MismatchBreaks`). With one attempt at a time in each
  process it is exclusive in every run if and only if at most two processes use it
  (`ExclusiveIffTwoProcesses`); three suffice for two holders (`TwoHolders`).
- **`ready` and a reconnect.** A cleanup asked for by `ready` forgets a provider
  by id alone, so it can drop a registration made in the meantime
  (`ReadyCanDropAReplacement`); finishing a cleanup is safe exactly when that has
  not happened (`FinishCleanupSafeIff`). Otherwise an effect sent through a third
  registration can be in flight after the cleanup of a disconnect
  (`EffectCanOutliveCleanup`).
- **`cfg` implication.** The enumeration is exact up to 32 atoms and not for any
  larger number, because the shift count is taken modulo 32
  (`ExactUpTo32Atoms`).

## Model

| member | source | states |
|---|---|---|
| JournalFormat.SplitJoin | src/control/journal.ts:456-467 | splitting into lines loses no byte, and neither lines nor tail hold a newline |
| JournalFormat.SplitOfJoin | src/control/journal.ts:456-467 | it is the only such splitting: joined lines and a newline-free tail come back as they were |
| JournalFormat.ReplayTornImage | src/control/journal.ts:446-517 | an intact file followed by any newline-free fragment replays to exactly its events and first sequence, keeping exactly the committed bytes |
| JournalFormat.ReplayAnyFragment | src/control/journal.ts:469-478 | any prefix of the next event's line is dropped on replay, except the whole line with its newline, which is adopted as the next event |
| JournalFormat.ReplaysIff | src/control/journal.ts:446-517 | on any file, replay succeeds exactly if every line that counts, but for a header, spells the event that is due; then it returns those events, and otherwise it names the first line that does not |
| JournalFormat.ImageShrinks | src/control/journal.ts:937-947 | dropping events always makes the file shorter, even when it gains or lengthens its header |
| JournalCodec.GoodCodecExists | src/control/journal.ts:937-956 | an encoder exists that is injective, free of newlines, read back by its decoder, and has the shorter header: what the journal relies on can be had |
| JournalModel.LastIndexedMeaning | src/control/journal.ts:1186-1189 | the index maps exactly the keys of indexed events, each to its last one |
| JournalModel.LastIndexedAfterDrop | src/control/journal.ts:971-980 | forgetting the keys last seen below the new first sequence equals indexing what is kept |
| JournalModel.AppendKeepsInv | src/control/journal.ts:557-617 | whatever its system calls do, an append commits exactly its event or nothing, and leaves the committed bytes plus at most one remembered fragment |
| JournalModel.AppendCommitsIff | src/control/journal.ts:526-617 | an append is acknowledged exactly if what was left is mended and its own open, size check, write and sync succeed; something is left to mend exactly after a failed write that was not rolled back for certain |
| JournalModel.RepairKeepsInv | src/control/journal.ts:526-546 | a repair that goes ahead restores exactly the committed bytes |
| JournalModel.CompactKeepsInv | src/control/journal.ts:919-985 | with targets that never go back, every way a compaction ends (replaced, aborted, failed before or after the rename) keeps file, memory and remembered length sound |
| JournalModel.CompactDrops | src/control/journal.ts:919-985 | a compaction that succeeds drops exactly the events up to its target and leaves nothing to mend; one that ends before its rename changes nothing |
| JournalModel.RenameThenFailSafeIff | src/control/journal.ts:957-979 | with a torn length remembered, renaming and then failing is safe exactly when the file does not come to start earlier than before |
| JournalModel.UnsafeRenameLosesBytes | src/control/journal.ts:526-546 | otherwise the next append, all its system calls succeeding, cuts committed bytes |
| JournalModel.UnsafeRenameIsReached | src/control/journal.ts:957-979 | a run of allowed steps comes to a state in which that can happen |
| JournalModel.OpenKeepsInv | src/control/journal.ts:446-517 | reopening never reports corruption; it returns the committed events in order, plus at most one unacknowledged whole line |
| JournalModel.RunKeepsInv | src/control/journal.ts:404-985 | the file is sound after every run of appends, torn appends, repairs, compactions and crashes |
| JournalModel.ReplayAfterAnyRun | src/control/journal.ts:446-517 | after any such run, replay gives back all committed events since the file's first sequence, in order, and at most one unacknowledged line |
| JournalModel.HistoryOnlyGrows | src/control/journal.ts:557-617 | no step rewrites the committed history; only an acknowledged append or the adoption of a whole line extends it |
| JournalModel.IndexAfterAnyRun | src/control/journal.ts:1186-1189 | after any run the index holds each key's last retained indexed event and nothing else |
| DurableSide.AppendActs | src/control/journal.ts:557-617 | an append of the journal is an acknowledged append of the runtime's picture of it, or a rejected one after which nothing but what stayed before or its own event may be adopted |
| DurableSide.CompactRenames | src/control/journal.ts:919-985 | a compaction that renames is the runtime's rename step, whether or not what follows it fails |
| DurableSide.CompactStays | src/control/journal.ts:919-985 | one that does not rename leaves the runtime's picture of the journal as it was |
| DurableSide.ReopenActs | src/control/journal.ts:446-517 | reopening the journal after any fault is a death and a restart of the runtime, adopting at most the line the runtime reckons with |
| ControlJournals.ControlJournal.constructor | src/control/journal.ts:404-426 | the head comes from the last event or the header, and every retained event is indexed |
| ControlJournals.ControlJournal.Replay | src/control/journal.ts:446-517 | the split, cut and parse loops compute the specified replay and leave exactly the complete lines in the file |
| ControlJournals.ControlJournal.Open | src/control/journal.ts:428-444 | opens exactly when replay reports no corruption, in the state the state machine prescribes |
| ControlJournals.ControlJournal.Append | src/control/journal.ts:557-617 | takes exactly the append step: repair or refuse, write, roll back or remember, commit |
| ControlJournals.ControlJournal.Compact | src/control/journal.ts:919-985 | takes exactly the compaction step |
| ControlJournals.ControlJournal.Read | src/control/journal.ts:619-632 | reading by position returns the first `limit` retained events after a sequence, all of them without a limit, and for a negative limit exactly what JavaScript's slice gives |
| ControlJournals.NewerByIndex | src/control/journal.ts:619-632 | the events after a sequence, picked one by one, are the slice the position gives |
| ControlJournals.ControlJournal.RecoverNonterminalCommands | src/control/journal.ts:1129-1173 | appends a terminal event for exactly the transactions recovery owes, in sequence order, and stops at the first refused append |
| ControlJournals.RecoverAppendsCommits | src/control/journal.ts:1160-1172 | a recovery that returns has committed exactly those events, whatever faults its appends met |
| ControlJournals.RecoverSucceeds | src/control/journal.ts:1160-1172 | with nothing left to mend and every append going well, recovery returns, having appended one event for each transaction |
| Folds.LatestPerMeaning | src/control/runtime.ts:3052-3082 | the projection holds exactly the records no later record of their key replaces |
| Folds.LatestSortedIsLatestPer | src/control/runtime.ts:3052-3082 | setting records into an ordered map and sorting its values gives that projection, in order |
| Folds.LatestDurableReceiptRecords | src/control/runtime.ts:3052-3068 | the loop over events computes the latest-per-key projection of the receipts, which `DurableRecords.JournalReceipts` tells over the events |
| DurableRecords.JournalReceipts | src/control/runtime.ts:3052-3068 | of a stretch of the journal exactly the last receipt of each action is returned, told by the last terminal event that names its transaction and carries one for that `actionId`; in order, and no action twice |
| Folds.MergeDurableReceiptRecords | src/control/runtime.ts:3074-3082 | the two loops compute the latest-wins union of snapshot and journal tail |
| DurableRecords.MergedReceipts | src/control/runtime.ts:3074-3082 | a merge keeps the newer list, and of the older one exactly the receipts of actions the newer one has none of; no action twice |
| Folds.DurableCompletedTransactions | src/control/runtime.ts:3030-3046 | the loops compute the last thousand completed transactions of snapshot and events |
| Folds.CapIsExact | src/control/runtime.ts:2133-2145 | capping before folding on loses nothing the final cap would keep |
| Folds.ReceiptSnapshotIsExact | src/control/runtime.ts:2133-2156 | after any number of compaction rounds the snapshot's receipts are the last thousand of the latest-per-action projection of the whole history it covers; which receipts those are is `DurableRecords.ReceiptsTold` |
| DurableRecords.ReceiptsTold | src/control/runtime.ts:3052-3068 | the projection of a history holds a receipt if and only if some terminal event tells it and no later one has a receipt of its action |
| Folds.RestoredReceiptsAreExact | src/control/runtime.ts:323-338 | merging snapshot and tail and capping gives what the never-compacted history gives |
| DurableRecords.RestoredReceipts | src/control/runtime.ts:323-338 | restored are exactly the last receipts of the actions of the whole history, except those with a thousand later ones of other actions |
| Folds.CompletedSnapshotIsExact | src/control/runtime.ts:2140-2156 | the same for completed transactions |
| DurableRecords.SnapshotCompletions | src/control/runtime.ts:3030-3046 | a snapshot's completions are exactly the last events that close each transaction of the history it covers, except those with a thousand later ones |
| Folds.RestartedCacheIsExact | src/control/runtime.ts:1596-1605 | the receipt cache refilled at a restart is the last thousand of the uncompacted projection |
| DurableRecords.RestartedCache | src/control/runtime.ts:1596-1605 | the cache holds exactly the restored receipts, each under its own action |
| DurableRecords.RememberIs | src/control/runtime.ts:1596-1605 | remembering a receipt replaces what its action had and makes it the newest; only a full cache without one for that action loses an entry, its oldest |
| Recovery.DurableOpenTransactions | src/control/runtime.ts:3008-3028 | the loops compute the open transactions, or refuse past 256 of them |
| Recovery.OverlapHarmless | src/control/journal.ts:1129-1158 | replaying events a snapshot already covers does not change what is open |
| Recovery.OpenSnapshotIsExact | src/control/runtime.ts:3008-3028 | a chain of snapshots records exactly the transactions open where it ends, or some round overflowed |
| DurableRecords.SnapshotOpens | src/control/runtime.ts:3008-3028 | a snapshot that did not overflow lists exactly the transactions whose last event up to there opens them, as that event tells, oldest first |
| Recovery.RecoverTodoIff | src/control/journal.ts:1159-1166 | recovery ends exactly the open transactions if and only if none of them has a retained terminal event |
| DurableRecords.RecoveryTold | src/control/journal.ts:1129-1173 | recovery ends exactly the transactions whose last event opens them and that no retained event closes |
| Recovery.RecoveryIsComplete | src/control/journal.ts:1129-1173 | when no open event follows a terminal one of its transaction, recovery finds every open transaction and nothing else |
| Recovery.RecoveryTerminatesAll | src/control/journal.ts:1129-1173 | after recovery every opened transaction has a terminal event, and recovering again from any later snapshot appends nothing |
| RuntimeLog.RecoverSetMeaning | src/control/journal.ts:1129-1173 | from any snapshot and retained suffix, a restart ends exactly the open transactions of keys that are not requested again once ended |
| RuntimeSteps.LoadedRetainedKeeps | src/control/runtime.ts:477-506 | answering from a retained terminal event, marking it dirty or refusing keeps the invariant |
| RuntimeSteps.SettleKeeps | src/control/runtime.ts:1666-1701 | so does appending a terminal event, with room in the dirty map or without |
| RuntimeSteps.VerifyKeeps | src/control/runtime.ts:2024-2056 | so does verifying one covered outcome against its sidecar; when a check passes is `RuntimeCompaction.CheckPassesIfLatest` |
| RuntimeSteps.GuardSnapshotKeeps | src/control/journal.ts:1052-1062 | a snapshot write is skipped without a word only in an attempt that is already invalidated |
| RuntimeSteps.SnapshotRenamedKeeps | src/control/runtime.ts:2148-2162 | a snapshot that becomes durable covers only keys with a sidecar, whether or not its sync succeeds |
| RuntimeSteps.PublishKeeps | src/control/journal.ts:709-728 | a publication, or a marker put in place after comparing digests, keeps the invariant |
| RuntimeSteps.CrashKeeps | src/control/journal.ts:569-600 | so does dying with an append in flight, which may turn out committed |
| RuntimeSteps.OpenKeeps | src/control/runtime.ts:312-316 | a restart sets out to end exactly the open commands |
| RuntimeSteps.RewriteStoreKeeps | src/control/runtime.ts:1455-1470 | so does publishing, at a restart, the outcome of an approval that was pending, ahead of its event |
| RuntimeSteps.RewriteAppendKeeps | src/control/runtime.ts:1455-1470 | and journaling it afterwards |
| Runtime.RunInv | src/control/runtime.ts:312-2174 | every run of submits, executions, rejected appends, unguarded commands given up, compactions, crashes and restarts keeps the invariant |
| Runtime.AtMostOnce | src/control/runtime.ts:345-601 | in every run a key is requested at most once, plus once for each terminal event decided and not committed and each time it was given up unguarded; a plain command's handler is invoked no more often than that (a surface command's handler is the matter of ApprovalGate) |
| Runtime.Counted | src/control/runtime.ts:1666-1701 | what the state counts of a key's terminal events not committed, and of its being given up, is how often the run took such a step |
| Runtime.OutcomeIsKept | src/control/runtime.ts:345-515 | a plain command has at most one outcome in every run in which no terminal event of it was lost and it was never given up; otherwise at most one besides recovery's, which then is the last |
| Runtime.EndedNeverRunsAgain | src/control/runtime.ts:477-519 | a key with a terminal event is never admitted again, whatever was compacted since |
| Runtime.AnswersAreRecorded | src/control/runtime.ts:345-515 | every answer is an outcome recorded for its key, for a plain key of which no attempt was lost the only one, or a marker for a covered one |
| Runtime.LegacyKeysNeverBlock | src/control/runtime.ts:512-514 | a completed key a snapshot remembers always has its sidecar, so its retry is not turned away |
| Runtime.RetryFailsIff | src/control/runtime.ts:477-506 | a retry of an ended plain command whose sidecar can be read fails exactly when the sidecar contradicts the terminal event in memory, or there is none and either the dirty map is full or the request was compacted away and no recovery wrote the event |
| Runtime.EvidenceAfterRun | src/control/runtime.ts:2108-2174 | at every reachable state each ended key has a retained terminal event or a sidecar, the file starts at most one past the snapshot, and the snapshot's open commands are exact |
| Runtime.NothingDroppedWithoutSnapshot | src/control/runtime.ts:2147-2171 | past the snapshot write an attempt that would still go on has its own snapshot on disk |
| Runtime.TargetsNeverGoBack | src/control/runtime.ts:2109-2114 | compaction targets never decrease, across attempts and restarts |
| Runtime.LaterOutcomeWins | src/control/runtime.ts:1895-1953 | once the entry of the latest terminal event clears, the sidecar tells its exact outcome; only an outcome a covered event already had can read as a marker |
| RuntimeCompaction.CheckPassesIfLatest | src/control/runtime.ts:2024-2056 | in every run an attempt that should not abort survives the check of a key exactly if its sidecar can be read and is a marker or tells the key's latest outcome, unless the key has ended again since |
| RuntimeCompaction.AttemptSurvivesIff | src/control/runtime.ts:2108-2174 | an attempt survives a step exactly if it should not abort, where it looks, and its check, snapshot or markers did not fail |
| RuntimeCompaction.FailuresAreSeen | src/control/runtime.ts:2058-2081 | a marker that was not put in place for certain fails its batch |
| RuntimeCompaction.FailedTriesAreSeen | src/control/runtime.ts:2058-2081 | so does one that could not even be tried |
| RuntimeCompaction.CompactionGoesThrough | src/control/runtime.ts:2108-2174 | from every reachable state with enough to drop, nothing dirty up to the target, not too many commands open and an agreeing sidecar or marker for each outcome to be dropped, steps follow after which journal and snapshot have moved to the target, each dropped outcome has its marker, and nothing else changed |
| RuntimeServes.CommandIsServed | src/control/runtime.ts:345-538 | in every run a key that never ended and is not at work can be admitted, carried out once, ended with any outcome and published, and is answered with that from then on |
| RuntimeServes.SettledIff | src/control/runtime.ts:1666-1701 | a journaled outcome is answered at once, and is dirty and queued for publication exactly if the dirty map has room or an entry of its key; no compaction goes on |
| RuntimeServes.SubmitsIff | src/control/runtime.ts:345-361 | a submit is answered at once exactly if the key's outcome is hot or dirty, and otherwise looked up, by its terminal event if the journal still holds that as the key's last |
| RuntimeServes.LookupIff | src/control/runtime.ts:477-519 | what a lookup answers, and when it admits the command, told exactly by sidecar, event, dirty map and completed keys |
| RuntimeServes.AnswerIsRemembered | src/control/runtime.ts:477-519 | an answer read from a sidecar or told from the event is in the hot cache from then on |
| RuntimeServes.MissingSidecarMarks | src/control/runtime.ts:497-505 | a load without a sidecar leaves the key dirty, with its outcome as far as it can be told, unless the map is full, and stops any compaction |
| RuntimeServes.MarkDirtyIs | src/control/runtime.ts:1895-1935 | marking keeps the later event and never forgets an outcome |
| RuntimeServes.DirtyIsRepaired | src/control/runtime.ts:1955-1983 | in every run a dirty outcome with nothing queued can be made durable, and is then no longer dirty |
| RuntimeServes.RejectedEnds | src/control/runtime.ts:345-361 | a rejected append of a request or a decided end frees the key for the next submit, and changes nothing else but the count |
| RuntimeServes.RequestRetainedIff | src/control/runtime.ts:477-506 | a request counts as retained exactly if the journal still holds one of that command |
| RuntimeRuns.BoundIsReached | src/control/runtime.ts:1103-1187 | for any number of terminal events lost and, if it is unguarded, of times given up, there is a run in which a command is requested, and its handler invoked, once more than that |
| RuntimeRuns.AtMostOnceIff | src/control/runtime.ts:508-538 | so a plain command runs at most once in all runs with at most `n` terminal events lost if and only if `n` is zero and it is guarded |
| RuntimeRuns.GivenUpRunsTwice | src/control/runtime.ts:550-601 | a run in which no terminal event is lost and an unguarded command, such as a delegation whose own event is rejected, is requested and carried out twice |
| RuntimeRuns.RetryCanFail | src/control/runtime.ts:1838-1849 | a run without a rejected append after which a retry of an ended plain command fails though its sidecar can be read and the dirty map has room |
| RuntimeRuns.RestartServesIff | src/control/runtime.ts:312-340 | a dead process can be started again, by any number of restarts, exactly when every key that ended after the snapshot has an agreeing sidecar or a marker, or no sidecar and an event that tells the outcome, or waits for an approval, or has a command still open |
| RuntimeRuns.RefusedForGood | src/control/runtime.ts:1810-1858 | once a key's latest terminal event cannot pass its startup check, no continuation ever serves again |
| RuntimeRuns.PlainCanBlock | src/control/runtime.ts:1841-1848 | it is reached by a plain command whose request is compacted away while it runs and whose process dies before its outcome is published |
| RuntimeRuns.SurfaceCanBlock | src/control/runtime.ts:1841-1848 | and by a surface command whose process dies before its outcome is published |
| RuntimeRuns.DyingBeforePublicationBlocks | src/control/runtime.ts:918-933 | that state is reached by dying between a second terminal event and its publication |
| RuntimeRetries.SameIdKeepsOutcome | src/control/runtime.ts:345-515 | a plain key whose submits all carry one command id has at most one outcome in every run |
| RuntimeRetries.OutcomeCanChange | src/control/runtime.ts:1759-1769 | a run in which a key answers a durable outcome and, after a restart, that the outcome is unknown: with one terminal event lost, or for an unguarded command with none |
| RuntimeRetries.OutcomeKeptIff | src/control/runtime.ts:1759-1769 | so a plain command keeps its outcome in all runs with at most `n` terminal events lost if and only if `n` is zero and it is guarded |
| Dispatch.EscapesIff | src/control/runtime.ts:462-782 | after its request a command can fail where nothing catches if and only if it is a takeover, a delegation by a human, a prompt or input that names no pane, or a pane action without an action |
| Dispatch.PromisesKeptIff | src/control/runtime.ts:1103-1187 | while no terminal event is lost, a plain command runs at most once, and keeps its outcome, if and only if no failure after its request can escape |
| PaneQueues.OvertakenNeverStarts | src/control/runtime.ts:580-601 | after a takeover no automation queued on the pane before it and not started ever reaches its handler |
| PaneQueues.FirstInFirstOut | src/control/runtime.ts:1042-1101 | commands and effects on one target reach their handlers in the order they were queued, each at most once and only after everything queued before it has left, over all queue objects the target ever had |
| PaneTurns.StartedIff | src/control/runtime.ts:1077-1101 | in every run a command that took its turn reached its handler exactly if its request was written and, for automation, no takeover of its pane found it waiting; an effect exactly if it was found valid; while waiting only a takeover ends one |
| PaneTurns.TurnStartsIff | src/control/runtime.ts:1077-1088 | at every reachable state taking the turn invokes the handler, next in order, under exactly these conditions |
| PaneTurns.EveryoneCanLeave | src/control/runtime.ts:1042-1101 | from every reachable state every entry can still leave its queue and every command's caller be answered exactly once |
| PaneTurns.TakeoverIs | src/control/runtime.ts:2272-2290 | a takeover raises its pane's barrier and ends exactly the waiting automation in the pane's registered queue |
| PaneTurns.QueueHolds | src/control/runtime.ts:1067-1101 | a registered queue holds exactly the entries of its target that have not left |
| PaneTurns.CommandQueued | src/control/runtime.ts:1042-1074 | a command is queued last where the effects on its pane's registered surface are |
| PaneTurns.RequestIsAnswered | src/control/runtime.ts:1042-1050 | the outcome of a request's append is what its command goes by |
| PaneTurns.EffectQueuedIff | src/control/runtime.ts:941-967 | an effect is queued, last, unless its queue is quarantined or has 64 waiting |
| PaneTurns.QuarantineIff | src/control/runtime.ts:1003-1005 | a queue becomes quarantined exactly when an effect queued on that very object times out |
| PaneTurns.BlockedIff | src/control/runtime.ts:441-458 | a queue is blocked from when it is asked to be until it is unblocked |
| PaneQueues.HasTurn | src/control/runtime.ts:1067-1073 | once the tail an entry was chained on has settled, every entry queued before it on its target has left, pruned queue objects included |
| PaneQueues.NothingPrunedWaiting | src/control/runtime.ts:2212-2262 | an entry that has not left stays a member of the registered queue object it was chained on, and no pruning of that object is possible |
| PaneQueues.AnsweredOnce | src/control/runtime.ts:1631-1644 | a command's caller is answered at most once, though its turn, its catch branch and takeovers may all try to end it, and one that left unanswered has a call under way that answers it |
| PaneQueues.PruningRevivesNothing | src/control/runtime.ts:2235-2249 | dropping a barrier touches no command still queued, so nothing stale reads as current |
| PaneQueues.RunKeeps | src/control/runtime.ts:1042-1101 | the queue invariant holds after every run |
| LaneLeases.LaneLeaseStore.Replace | src/control/leases.ts:36-57 | raises the pane's revision and replaces its lease, or throws after raising the revision when there is no valid expiry, and changes nothing else |
| LaneLeases.LaneLeaseStore.Assert | src/control/leases.ts:59-75 | passes or refuses in the order of the specification |
| LaneLeases.RevisionCounts | src/control/leases.ts:36-57 | a pane's revision counts the delegations and takeovers called for it, thrown ones included, over any history, and its lease is the last one granted |
| LaneLeases.EarlierRevisionRefused | src/control/leases.ts:59-68 | a revision there has been is refused for everyone if and only if a later delegation or takeover was granted, or it was not the lease's already |
| LaneLeases.LatestLeasePasses | src/control/leases.ts:59-75 | the latest lease passes exactly for its holder and until it expires |
| LaneLeases.ThrownChangesNothing | src/control/leases.ts:43-56 | a delegation that throws leaves every pane's lease and every assertion as it was |
| LaneLeases.DelegationLasts | src/control/leases.ts:36-75 | a delegation lets its actor pass exactly until its duration is over, and only if that is a valid time |
| Approvals.RunValid | src/control/approvals.ts:149-339 | over all calls the action index is the exact inverse of the records, at most 256 are active and at most 1000 terminal |
| Approvals.DropMembers | src/control/approvals.ts:326-339 | pruning drops no active record |
| ApprovalLaws.PrunedIs | src/control/approvals.ts:326-339 | pruning forgets the oldest terminal records, as many as there are above a thousand, and nothing else |
| Approvals.ConsumeOnlyApproved | src/control/approvals.ts:197-223 | consuming succeeds exactly for an approved, unexpired record asserted with its own identity and digest |
| ApprovalLaws.ConsumeRefusals | src/control/approvals.ts:197-223 | what a consumption that does not succeed is told, reason by reason |
| Approvals.ConsumedAtMostOnce | src/control/approvals.ts:197-223 | each approval id is consumed at most once over all calls |
| Approvals.ConsumeNeedsApproval | src/control/approvals.ts:197-223 | a consumption follows an approval and asserts the identity requested |
| Approvals.TerminalIsFinal | src/control/approvals.ts:658-682 | a terminal record never changes again; it can only be forgotten |
| ApprovalStores.ApprovalStore.PruneTerminal | src/control/approvals.ts:326-339 | the counting and deleting loops forget exactly the oldest terminal records and their actions |
| ApprovalStores.ApprovalStore.ExpireAtTime | src/control/approvals.ts:230-241 | the loop over the live map ends exactly the lapsed records and returns them in order |
| ApprovalLaws.ExpireIff | src/control/approvals.ts:230-241 | expiry ends exactly the live records whose time is up |
| ApprovalStores.NewlyEndedMembers | src/control/approvals.ts:230-241 | the records returned are exactly those the pass changed |
| ApprovalStores.ApprovalStore.RequestAtTime | src/control/approvals.ts:160-187 | takes exactly the request step, with every refusal; whom it serves is `ApprovalLaws.RequestReuses` and `ApprovalLaws.RequestAdds` |
| ApprovalLaws.RequestReuses | src/control/approvals.ts:160-171 | an action that has an approval gets that very one exactly for the same intent, and a conflict for any other; nothing changes |
| ApprovalLaws.RequestAdds | src/control/approvals.ts:172-187 | any other action gets a new one, pending, for what was asked and for its time to live, unless 256 are active or the generated id cannot be used |
| ApprovalLaws.RequestServes | src/control/approvals.ts:160-187 | whatever a request hands out is for the identity asked for and filed under its action |
| ApprovalStores.ApprovalStore.ResolveAs | src/control/approvals.ts:274-299 | takes exactly the approve or deny step |
| ApprovalLaws.ResolveIff | src/control/approvals.ts:271-312 | an operator resolves exactly a pending record in its time, by its digest; each refusal has its own reason |
| ApprovalStores.ApprovalStore.ConsumeOnce | src/control/approvals.ts:197-223 | takes exactly the consume step |
| ApprovalStores.ApprovalStore.Revoke | src/control/approvals.ts:243-258 | ends exactly the live records a revocation is for |
| ApprovalLaws.RevokeIff | src/control/approvals.ts:243-258 | of the records still live exactly those of the lease, of the ids, or all are ended, and every other stays as it was |
| Actions.EffectIffApproval | src/control/policy.ts:78-163 | the policy has an action need an approval exactly when there is an effect to show the operator |
| Actions.CapabilitiesAgree | src/control/runtime.ts:2441-2494 | the capability the policy asks a lease for is the one by which the runtime's own table attributes the action to that lease |
| Actions.ClassifiesIff | src/control/policy.ts:78-163 | the policy refuses exactly actions on elements of which the page does not say what it must know |
| ApprovalGate.CalledAtMostOnce | src/control/runtime.ts:862-939 | an approval leads to at most one handler call, in every interleaving of submissions, resolutions, expiry and revocation |
| ApprovalGate.CalledOnlyAsApproved | src/control/runtime.ts:941-1040 | a handler is called only for an action that reads, as its effect leaves the queue, as it did when submitted, and whose lease, after that, was current and had a grant listing its capability on its target for its actor and task; one that needs an approval only after an operator approved it and that approval was spent on it once, under its digest; no other involves one |
| ApprovalGate.LeaseEndedNeverCalls | src/control/runtime.ts:941-985 | once its lease has ended, an action not yet found current on leaving the queue never reaches its handler, approved or not, whatever is granted later |
| ApprovalGate.CurrentIffGrants | src/control/capabilityLeases.ts:113-137 | a lease is found current exactly if it is filed at that revision in this process, unexpired, of the actor and task, and grants the capability on the target |
| ApprovalPath.AllowedIsCalled | src/control/runtime.ts:941-1040 | in every run an action the policy allows and that passes its checks can be submitted and called |
| ApprovalPath.ApprovedIsCalled | src/control/runtime.ts:872-1040 | and one that needs an approval can be submitted, approved, spent and called under its own approval |
| ApprovalPath.SubmitsIff | src/control/runtime.ts:711-761 | a submitted action is queued, or its approval asked for, exactly if it is timely, known to the policy, registered, active and granted; no intent asked for before is replaced |
| ApprovalPath.DecidesIff | src/control/runtime.ts:872-915 | a decision grants exactly an operator's approval of a live pending record by its digest |
| ApprovalPath.ClearsIff | src/control/runtime.ts:916-917 | clearing lets through exactly what is still registered, active and granted |
| ApprovalPath.SpendsIff | src/control/runtime.ts:918-934 | an approval is spent exactly if it is approved, unexpired, and of this very intent under this digest |
| ApprovalPath.LeavesIff | src/control/runtime.ts:970-976 | an effect leaves its queue for the last checks exactly if it is timely, still understood and registered |
| ApprovalPath.CurrentIff | src/control/runtime.ts:970-976 | the last assertion passes exactly for an active subject whose lease grants what the action now is |
| ApprovalPath.CallsIff | src/control/runtime.ts:972-976 | the handler is called exactly if the action reads as it did when it was submitted |
| CapabilityLeases.GrantsEqual | src/control/capabilityLeases.ts:236-264 | comparing sizes and one inclusion decides whether two grant lists authorise the same pairs |
| CapabilityLeases.RenewalKeepsAuthority | src/control/capabilityLeases.ts:97-122 | a renewal succeeds exactly in the same process, for the same actor, task and operator and the same authorised pairs; then it adds exactly one to the revision and changes nothing else but the expiry |
| CapabilityLeases.FirstGrant | src/control/capabilityLeases.ts:86-111 | without a lease in force a request gets a new one at its first revision, and the leases of others stay |
| CapabilityLeases.GrantExpires | src/control/capabilityLeases.ts:97-107 | a grant lives as long as asked for, within its bounds |
| CapabilityLeases.AssertIff | src/control/capabilityLeases.ts:113-137 | an assertion passes exactly for a filed lease of this process, at its revision, before its expiry, by its own actor and task, for a pair its grants authorise; each refusal has its own condition |
| CapabilityLeases.GrantedPasses | src/control/capabilityLeases.ts:86-137 | what a grant hands out passes exactly at its own revision until its expiry, for the subject and the pairs the request named; the revision before it does not |
| CapabilityLeases.RunValid | src/control/capabilityLeases.ts:86-194 | the lease and request maps stay each other's inverse |
| CapabilityLeases.EndedNeverPasses | src/control/capabilityLeases.ts:113-137 | a lease id once ended is never authority again, whatever is granted later |
| CapabilityLeases.CapabilityLeaseStore.Grant | src/control/capabilityLeases.ts:97-122 | takes exactly the grant or renewal step |
| CapabilityLeases.CapabilityLeaseStore.Invalidate | src/control/capabilityLeases.ts:191-215 | ends the lease in both maps and appends it to the pruned history |
| CapabilityLeases.PrunedHistoryIs | src/control/capabilityLeases.ts:206-212 | pruning the history drops its oldest entries, no more than it must |
| CapabilityLeases.SurvivorsAuthoriseNothing | src/control/capabilityLeases.ts:156-165 | a lease that survives the revocation of a target authorises nothing on it |
| ProviderBroker.AnsweredOnce | src/control/browserProviderBroker.ts:156-206 | at most one effect is in flight a tab, an effect's caller is answered at most once, and by a provider only through a registration of the effect's own, in every run |
| BrokerLaws.AnsweredIffSettled | src/control/browserProviderBroker.ts:156-206 | in every run an effect has its one answer exactly when it is no longer in flight |
| BrokerLaws.AnswersAre | src/control/browserProviderBroker.ts:156-270 | an effect is answered by its result, its timeout, a failed send or its provider's disconnect, each telling which, and by nothing else |
| BrokerLaws.DispatchIff | src/control/browserProviderBroker.ts:118-166 | an effect can go out exactly to the live owner of the tab at that generation, while neither its action nor the tab is busy and there is room |
| ProviderBroker.WithinCaps | src/control/browserProviderBroker.ts:208-240 | providers, effects, resources and resources per provider stay within their limits in every run |
| BrokerLaws.UpsertTakesIff | src/control/browserProviderBroker.ts:208-240 | with the lock free a tab is taken exactly if it names its own provider and is that provider's already or still fits |
| BrokerLaws.RemoveTakesIff | src/control/browserProviderBroker.ts:242-253 | and given up exactly if it is that provider's at that generation |
| ProviderBroker.DisconnectLeavesNothing | src/control/browserProviderBroker.ts:264-302 | a disconnect whose cleanup completes leaves no resource of that provider, in every run, and no effect in flight if no other registration of that provider is connected or no cleanup dropped a newer registration |
| BrokerLaws.DisconnectCompletes | src/control/browserProviderBroker.ts:264-302 | with the lock free a live registration can disconnect for good: its id is free, its tabs and effects gone, those of others untouched |
| BrokerLaws.CleanupFreesIff | src/control/browserProviderBroker.ts:279-302 | a cleanup gives the id free exactly if nothing failed in it; a tab whose removal failed stays |
| ProviderBroker.EffectCanOutliveCleanup | src/control/browserProviderBroker.ts:264-302 | otherwise an effect can be in flight after it: a run in which a third registration sends one before the second's cleanup |
| ProviderBroker.FinishCleanupSafeIff | src/control/browserProviderBroker.ts:279-302 | finishing a cleanup keeps every connected registration usable exactly when its id has no newer connected one |
| ProviderBroker.ReadyCanDropAReplacement | src/control/browserProviderBroker.ts:103-110 | a run in which a cleanup asked for by `ready` drops a newer registration |
| BrowserBroker.BrowserProviderBroker.DispatchEffect | src/control/browserProviderBroker.ts:145-206 | takes exactly the dispatch step, refusing in every other case, each time for its own reason |
| BrowserBroker.BrowserProviderBroker.EndEffects | src/control/browserProviderBroker.ts:264-270 | ending effects one by one answers each effect of the provider once and no other |
| BrowserBroker.BrowserProviderBroker.CompleteEffect | src/control/browserProviderBroker.ts:255-262 | a result is taken only through a live registration and for its own provider's effect |
| TaskLock.AtMostOneHolder | src/control/credentials.ts:846-971 | in every run without a mismatched read every live holder finds its own lock in place, so there is at most one, however many processes run and die |
| TaskLock.LiveLockStays | src/control/credentials.ts:1535-1645 | nor does any process rename away the lock of another live process |
| TaskLockWait.TakesAloneIff | src/control/credentials.ts:879-957 | a live waiter left to itself can come to hold the lock if and only if there is none, or its owner is dead and any claim in it is left behind |
| TaskLockWait.ReleaseFrees | src/control/credentials.ts:1689-1704 | after a holder's release, in every run without a mismatched read, any live waiter can take the lock |
| TaskLock.RunKeeps | src/control/credentials.ts:1647-1704 | the lock invariant holds in every interleaving of such runs |
| TaskLockRun.MismatchBreaks | src/control/credentials.ts:898-931 | from every mismatched read the waiter and the claimer it disturbs, on their own, can both come to hold the lock |
| TaskLockRun.ExclusiveIffMatched | src/control/credentials.ts:898-931 | after a matched run, a step leaves the lock exclusive in all matched continuations if and only if it is not a mismatched read |
| TaskLockRun.ExclusiveIffTwoProcesses | src/control/credentials.ts:846-971 | with one attempt at a time in each process the lock is exclusive in all runs if and only if at most two processes use it |
| TaskLockRun.TwoHolders | src/control/credentials.ts:898-931 | three processes, one attempt of each at a time, can come to hold the lock twice |
| CredentialCreation.AllAgree | src/control/credentials.ts:487-543 | all callers that return get the same pair, and the file says it from then on |
| CredentialCreation.PublishedForGood | src/control/credentials.ts:510-513 | a published file never changes |
| CredentialCreation.LoserFindsWinner | src/control/credentials.ts:514-521 | a caller that lost the race always finds the winner's file |
| CredentialCreation.FirstLinkWins | src/control/credentials.ts:510-521 | the first caller to link publishes its own pair and returns it; every later one leaves the file as it is |
| CredentialCreation.FindsFile | src/control/credentials.ts:487-500 | a caller that finds the file returns what it says at once |
| CredentialCreation.CallerCanReturn | src/control/credentials.ts:487-543 | in every run a caller that has not given up can still return the pair the file then has |
| BoundedJson.Accepts | src/control/boundedJson.ts:24-94 | the walk ends on every graph and accepts exactly what unfolds to a finite plain tree of depth at most 64 with at most 100000 nodes |
| BoundedJson.Walk.Visit | src/control/boundedJson.ts:34-79 | one visit succeeds exactly when the item fits the depth and nodes left, and restores the path |
| BoundedJson.SizeIsFits | src/control/boundedJson.ts:34-79 | the computed size is that of a tree the value unfolds to |
| BoundedJson.CycleNeverFits | src/control/boundedJson.ts:43-45 | an object met again below itself unfolds to no tree, so the cycle check refuses nothing good |
| BoundedJson.CyclesNeverPass | src/control/boundedJson.ts:43-45 | an object on a cycle unfolds to no tree of any depth |
| CfgGates.Implies | __tests__/support/rustModuleGates.ts:394-403 | the counting loop computes the decision |
| CfgGates.DecidedIsEntails | __tests__/support/rustModuleGates.ts:371-425 | with at most 32 atoms the decision is right for all configurations with exactly one of unix and windows, though only occurring atoms are tried |
| CfgGates.ExactUpTo32Atoms | __tests__/support/rustModuleGates.ts:394-403 | the decision is right for all predicates over a number of atoms exactly up to 32 |

## Assumptions

- Digests, encoders and generated ids: injective functions and values never
  handed out before. A header naming sequence `n` is shorter than the line of
  event `n - 1`. Closing a file does not fail after a successful sync.
- A liveness probe never calls a live process dead; comparing a claim and
  renaming it away, and comparing one's own claim and unlinking it, are one step
  each.
- Clocks are integers passed to each step; callbacks and I/O results are
  parameters of the step that meets them.

## Left out

- Filesystem identity checks (inode and device snapshots, symlink, ownership and mode checks): they guard against outside tampering and leave the order of rename, link, truncate and write as it is.
- Loss of power: a step's writes are kept once its system call returned; what a disk forgets is not modelled.
- A failing `lstat` of the destination right after a rename counts as a failure after the rename.
- The runtime's dirty map has no size in the state machine: any mark of a key without an entry may find it full, which covers every size.
- Refusals for lack of capacity or durability before a request is journaled are one step that may be taken any time; so is giving up an unguarded command once its request is journaled.
- Runtime.AnswersAreRecorded: replies to surface commands replay a journal-safe projection; the state machine lets them tell the stored outcome.
- Runtime.RunInv: attesting retained outcomes of journals written before outcome digests existed is no step of a run, and the cap of a thousand receipts does not limit which pending approvals a restart ends.
- A key is always used for one kind of command: plain or on a surface, guarded or unguarded.
- When the runtime looks whether a compaction is due (after an outcome was stored, or before fresh work once one was blocked) is left out: an attempt may begin whenever there is enough to drop, which covers every such moment.
- Recovered transactions of one key are stored once at a restart, although the code stores them one after the other (`runtime.ts:1759-1769`): they carry the same outcome.
- PaneQueues: a queue blocker only delays a turn, so it is not a condition of taking one; what an effect does when its turn comes is in ApprovalGate.
- ApprovalGate: looking up surface, page and lease when an action is submitted is one step, and the queue in front of the handler is that of PaneQueues; which part of a command is shown to whom is left out.
- Two racing resolutions of one approval request may write two terminal events; ApprovalGate only counts their handler calls.
- Approvals: blank operator names are those of spaces, tabs and line ends; effect redaction, field-shape validation and receipt redaction are not modelled.
- CapabilityLeases: a grant whose duration is not a number throws and is not modelled; `revokeActorTask`, `revokeAll` and `snapshot` repeat the loops of `RevokeTarget` and `Expire`.
- RuntimeCompaction.CompactionGoesThrough: that a snapshot can be read and written is a matter of its system calls, which the steps it names all answer well.
- CapabilityLeases.CapabilityLeaseStore.RevokeTarget: visits leases in any order, so the order of returned leases and of history entries made in one pass is not stated.
- BoundedJson: encoding, decoding and the byte limit after the walk.
- CfgGates: parsing of attributes and source scanning; `not()` without an argument.
- Mutual exclusion of owner processes (`ownerLock.ts`): a stale takeover there is a read followed by a rename with nothing in between that excludes others.
- `client.ts`, `hostProcess.ts`, `endpoint.ts`, `protocol.ts`, `host.ts`, `browserSemanticSnapshots.ts`, `promptDispatch.ts`, `remoteActionSessions.ts` and the user interface: transport, process plumbing, tables and rendering that would only add easy members.
