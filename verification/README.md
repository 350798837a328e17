# A model of the worktree transaction layer

This project models how weavatrix-worktree changes a set of files so that a crash, a power loss or a failing step
never leaves a mixture, and proves what that protocol promises. It covers the path from a plan of logical operations
to the tree, and every run of crashes and recoveries on the way:

- **The disk** (`Outcomes`, `Filesystem`, `Disks`). Each path index owns four directory names: the target slot, the
  stage and the backup beside it, and the retained backup in the state directory. A name refers to a file identity,
  and link counts follow from the names. `Disks.World` keeps, beside the entries a process sees, every state a
  directory may show after a power loss; `sync_parent` empties that set to the present one;
  synchronizing the state directory settles the retained backup's name only. Every step may fail with
  or without effect, or crash the process, with or without the power; each such fault is taken from a finite budget,
  so "no fault" theorems say that a run succeeds and repeated recovery is seen to end. A journal append that reports
  failure may or may not be durable and poisons the writer.
- **The V3 operation transaction** (`Records`, `Replay`, `Machine`, `Grammar`, `Language`, `Protocol`, `Slots`,
  `Commits`, `Rollbacks`, `Transactions`, `Retained`). Replay is a function; the imperative automaton refines it,
  and the language of accepted journals is stated independently and proved to be exactly what replay accepts.
  Commit, in-process rollback, abort and the retained commit are methods over the disk with the loops and branches
  of the source.
- **Crash recovery** (`Verdicts`, `Exactness`, `Recoveries`, `Resumptions`, `Finishes`, `Settlements`,
  `Resolutions`, `Recovery`, `Runs`, `Reentrancy`, `Safety`). Recovery is specified on an arbitrary disk, by a
  verdict per path, and again on the disks an interrupted transaction leaves; the run theorems put the two together.
  `Exactness` says what every check and verdict means on the files themselves: bytes, length, permissions, identity
  and link count.
- **Undo** (`Restores`, `UndoReplay`, `UndoVerdicts`, `UndoSteps`, `UndoStates`, `Undos`, `Convergence`,
  `UndoResumptions`, `UndoRecovery`, `UndoRuns`, `UndoFailures`, `RoundTrips`, `Invalidation`) and the receipt store
  over whole runs (`Stores`). Rollback and undo recovery, too, are specified on an arbitrary disk, by a verdict per
  path, and again on the disks an undo leaves.
- **Preparation** (`Projections`, `Preparing`, `Staging`, `Preparation`, `PreparationRuns`) and the whole of
  `apply_plan` (`Applications`, `PlanRuns`).
- **Plan compilation** (`Plans`, `Meanings`, `Permutations`, `Assembly`, `Translations`, `Compilation`,
  `PreparedPlans`): the compiled transitions against the simultaneous meaning of the operations and against running
  them one at a time.
- **The scheduler** (`Scheduler`), **the journal file** (`Codec`), **the JSON budget** (`Metadata`) and **the V1 edit
  transaction** (`EditJournal`, `EditStore`, `EditTransactions`, `EditCommits`, `EditRecovery`, `EditRuns`).

Where the code does less than its documentation says, the model follows the code and the exact condition is proved:

- A rollback that records `Finished(RolledBack)` before any commit intent leaves a journal that replay rejects, so a
  crash before the journal is removed cannot be recovered (`Protocol.BareRollbackRejected`). No slot has changed then
  (`Runs.CommitRun`, ending `RejectedBare`).
- Recovery may be interrupted any number of times exactly on the journals whose rollback intents run from the highest
  commit intent downwards (`Reentrancy.ReentrantIff`, `Resumptions.SweptAcceptedIff`); in-process rollback leaves a
  journal that does not, when it skips a path that failed after its intent (`Reentrancy.SkippedExample`). A run that
  ends there has had three faults, and each of its slots shows its input or its output (`Runs.CommitRun`, ending
  `RejectedSkipped`).
- Undo recovery does not synchronize the target directory of a path it finds restored, or linked to its retained
  backup, before it records the path as done. An undo that recovery completes is therefore durable exactly if, when
  recovery began, the one path that was under way showed no change a power loss could still take back
  (`UndoResumptions.Steady`, `UndoRecovery.RecoverUndo`, last clause but two). Every power loss makes a disk steady;
  a process kill, or a failed step followed by recovery in the same boot, need not. `UndoRuns.UndoRun` therefore
  covers every kill, failure and power loss as long as recoveries begin on steady disks, and
  `UndoFailures.UnsyncedUndo` runs the rollback, the recovery and one power loss for any path of any retained commit
  on one that is not: the slot shows its committed state again, recovery refuses for good, and the bytes of a deleted
  file are under none of its names.
- A receipt whose directory synchronization fails stays behind as an orphan of a commit that is aborted
  (`Retained.CommitRetained`, out-parameter `orphan`).
- A preparation that reports a plain error may leave the journal file it failed to create, empty
  (`Preparation.Prepare`).
- A staging job that panics, or whose own cleanup fails when another job's error is reported, leaves its artifacts
  behind (`Preparation.Prepare`, out-parameter `leaked`).
- A receipt is written whatever its size but read only within the journal byte limit (`Stores.PrepareRetention`, last
  clause).
- V1 recovery records a rollback intent again for a file that already has one, and its own replay rejects the result
  (`EditRuns.ReadableIff`, `EditRuns.SecondCrash`); V1 is therefore claimed for one crash.
- Replay accepts `Finished(Committed)` also after rollback records (`Grammar.AcceptedIffWellFormed` lists such tails).

## Model
| member | source | states |
|---|---|---|
| Disks.Disk.Crash | docs/transaction-model.md:73-79 | After a crash every directory shows one of its possible states, durably if the power went; nothing else changes. |
| Disks.Disk.Append | src/operation/journal.rs:159-187 | An append that fails may still be durable, and then the writer refuses every later one. |
| Slots.LinkAbsentFrom | src/filesystem/slot.rs:69-81 | On success the slot was absent and now shares the artifact's file, durably; a failure leaves the old or the two-link state and nothing else. |
| Slots.FinishLinkedInstall | src/filesystem/slot.rs:84-101 | From the exact two-link state to the installed slot; any other state is refused untouched. |
| Slots.InstallAbsentFrom | src/filesystem/slot.rs:63-66 | The two steps together reach the installed slot or stop in one of the three states. |
| Slots.RollbackLinkedInstall | src/filesystem/slot.rs:104-112 | From the exact two-link state back to an absent slot with the artifact kept. |
| Slots.ReplaceFrom | src/filesystem/slot.rs:164-167 | The artifact takes the slot in one rename, not yet durable. |
| Slots.RemoveExact | src/filesystem/slot.rs:170-179 | Only a slot with exactly the expected state is removed. |
| Slots.RemoveArtifact | src/filesystem/target.rs:207-224 | A missing artifact is left alone, an unsafe one refused, any other removed and the directory synchronized. |
| Machine.Automaton.RegisterRead | src/operation/recovery_model/operation.rs:132-165 | Registering an input is the specified step: a second reader or a second spelling of a path is rejected. |
| Machine.Automaton.TakeOperation | src/operation/recovery_model/parse/transaction_records.rs:12-48 | The method refines the replay function on logical operations. |
| Machine.Automaton.TakePathIntent | src/operation/recovery_model/parse/path_records.rs:47-112 | The method refines the replay function on path intents, order and key checks included. |
| Machine.Automaton.TakePathStaged | src/operation/recovery_model/parse/path_records.rs:114-139 | The method refines the replay function on staged identities. |
| Machine.Automaton.TakePrepared | src/operation/recovery_model/parse/path_records.rs:141-157 | The method refines the replay function on the preparation record. |
| Machine.Automaton.TakeCommitIntent | src/operation/recovery_model/parse/transaction_records.rs:64-82 | The method refines the replay function on commit intents. |
| Machine.Automaton.TakeRollbackIntent | src/operation/recovery_model/parse/transaction_records.rs:95-111 | The method refines the replay function on rollback intents. |
| Machine.Automaton.TakeFinished | src/operation/recovery_model/parse/transaction_records.rs:124-135 | The method refines the replay function on the final record. |
| Machine.Automaton.ApplyRecord | src/operation/recovery_model/parse.rs:95-113 | One record of the automaton is one step of the replay function, refusals included. |
| Machine.ParseSound | src/operation/recovery_model/parse.rs:54-128 | Every accepted journal satisfies the invariant of the path records: indices in order, keys distinct, every path as its operation's endpoint expects. |
| Machine.PreparedBijection | src/operation/recovery_model/validate.rs:149-170 | In a prepared journal paths and endpoints are in bijection and keys strictly ascend. |
| Machine.ParseJournal | src/operation/recovery_model/parse.rs:54-65 | The imperative parser computes exactly the replay function; its final coverage check never rejects. |
| Replay.RejectedStays | src/operation/recovery_model/parse.rs:54-65 | A rejected journal stays rejected whatever is appended. |
| Grammar.TailAccepted | src/operation/recovery_model/parse/transaction_records.rs:64-135 | Every journal of the independent grammar is accepted and replays to exactly the sets and outcome it describes. |
| Grammar.TailRecognized | src/operation/recovery_model/parse/transaction_records.rs:64-135 | Every accepted record sequence after preparation is one of the grammar. |
| Grammar.AcceptedIffWellFormed | src/operation/recovery_model/validate.rs:172-191 | Replay accepts exactly these tails: commit intents strictly ascending with only the last uncompleted, rollback intents strictly descending among them with only the last uncompleted, `Committed` with every index completed, `Aborted` with no intent, `RolledBack` with one. |
| Grammar.PreparedJournal | src/operation/recovery_model/parse.rs:54-128 | Every accepted prepared journal is a preparation followed by such a tail, and its replayed state is the tail's. |
| Language.JournalIff | src/operation/recovery_model/parse.rs:54-128 | Replay accepts exactly the journals of a language stated without it, and holds exactly what they say: header, well-formed operations that read and write each path once, every path they name in key order with their evidence, the staged identities, preparation, and a tail; before preparation nothing but an abort may end it. |
| Language.FormedIff | src/operation/recovery_model/operation.rs:32-77 | An operation record is accepted exactly if it has the fields its kind asks for and no others, within the limits. |
| Language.FitsIff | src/operation/recovery_model/parse/path_records.rs:47-112 | A path is accepted exactly if some operation names it and it is present before and after exactly as its reader and writer say. |
| Language.StepIff | src/operation/recovery_model/parse.rs:95-113 | Each preparation record is taken exactly if the language lets it follow. |
| Protocol.BareRollbackRejected | src/operation/recovery_model/validate.rs:172-191 | Replay rejects a rolled-back journal without a commit intent. |
| Protocol.AfterAppend | src/operation/journal.rs:159-187 | However an append ends, the journal is described by the state before or after the record. |
| Protocol.ConcludedTree | src/operation/commit.rs:30-80 | A concluded transaction shows every output, or every input, in every state a power loss may leave. |
| Commits.Mutate | src/operation/commit.rs:207-236 | A path goes from exactly its before to exactly its after entries, through the listed intermediates only. |
| Commits.Classify | src/operation/commit/evidence.rs:43-76 | The classification tells what the failed mutation left. |
| Commits.CommitOne | src/operation/commit.rs:126-205 | A success is a durable completed commit of the path; each failure state describes the path truly; any crash leaves a journal and disk recovery can start from. |
| Transactions.VerifyAll | src/operation/commit/evidence.rs:8-41 | Read faults aside, accepts exactly the disks where every slot and artifact is as staged. |
| Transactions.CommitAll | src/operation/commit.rs:30-60 | The loop commits every path in order behind durable intents, or stops in a described state. |
| Transactions.Commit | src/operation/commit.rs:30-80 | `Ok`: every slot holds its output, no journal, artifact or backup is left. An error without the recovery flag: every slot is as before and the journal gone. Every other end leaves what recovery needs. |
| Transactions.Abort | src/operation/commit.rs:95-123 | Success leaves every slot as it was and nothing behind. |
| Rollbacks.Restore | src/operation/commit/rollback.rs:78-150 | Whatever a commit left in a slot, the slot returns to its exact before state, and an ambiguous one is left alone. |
| Rollbacks.RestoreAll | src/operation/commit/rollback.rs:12-45 | Changed paths are restored in reverse order, each behind a durable intent. |
| Rollbacks.RollbackChanged | src/operation/commit/rollback.rs:12-76 | Success leaves every slot as before, artifacts and journal gone. |
| Retained.WriteReceipt | src/operation/undo/receipt.rs:210-222 | The receipt is there, or gone again, or left by a failed directory synchronization. |
| Retained.DiscardReceipt | src/operation/commit/retained.rs:68-84 | The transitional receipt goes, durably. |
| Retained.FinishRetained | src/operation/commit/retained.rs:86-114 | After the final record every backup is in the state directory exactly once and the journal is gone. |
| Retained.CommitRetained | src/operation/commit/retained.rs:22-64 | Success: every output in place, every backup retained, the receipt there. A plain error: every slot as before, no receipt unless an orphan. |
| Recoveries.Inspect | src/operation/recovery/linked.rs:11-102 | The probes decide a path's verdict exactly. |
| Recoveries.ReverseLinkedCreate | src/operation/recovery/linked.rs:104-123 | An exact two-link create is reversed to an absent slot. |
| Recoveries.FinishLinkedRestore | src/operation/recovery/linked.rs:125-160 | An exact two-link restore is finished to the restored slot. |
| Recoveries.RestoreBackup | src/operation/recovery/apply.rs:208-279 | A verified backup goes back, without clobbering. |
| Recoveries.AttestIntent | src/operation/recovery/apply.rs:172-190 | An unchanged intended path is attested only when durably so. |
| Recoveries.RecoverPath | src/operation/recovery/apply.rs:97-170 | On any disk, one iteration does exactly what the path's verdict says, or stops in one of the states listed for it; a refused path is untouched, and success means the slot shows the journaled input: its bytes, length and permissions, or absence. |
| Recoveries.SweepPaths | src/operation/recovery/apply.rs:97-145 | On any disk, the loop deals with every path in descending order as its verdict says, or stops at the first refused one; success means every slot shows its journaled input. |
| Exactness.JudgeIff | src/operation/recovery/apply.rs:97-170 | A path is passed exactly in four states of its file: either exact two-link point under its intent, the input, or the output of a commit intended and not rolled back; each verdict is one of them. |
| Exactness.BackupIff | src/operation/recovery/apply.rs:208-279 | The backup that may go back is exactly a file with the input's hash, length, permissions and recorded identity and no other name. |
| Verdicts.SweptAt | src/operation/recovery/apply.rs:97-145 | What the whole sweep does to one path depends on that path's own entries and record alone. |
| Resumptions.JudgeAllowed | src/operation/recovery/apply.rs:97-170 | In every state the protocol allows the verdict is feasible and passes only through allowed states. |
| Resumptions.SweptRestored | src/operation/recovery/apply.rs:97-145 | After a complete sweep every path is untouched or exactly restored, durably. |
| Resumptions.SweptJournal | src/operation/recovery/apply.rs:97-145 | The journal the sweep writes stays one replay accepts, path after path. |
| Resumptions.SweepHalted | src/operation/recovery/apply.rs:97-145 | Wherever an interruption stops the sweep, recovery could start again. |
| Resumptions.SweptAcceptedIff | src/operation/recovery/apply.rs:172-190 | Replay accepts a swept journal exactly if rollback began at the highest intent. |
| Resumptions.SkippedHalted | src/operation/recovery/apply.rs:172-190 | An interrupted recovery of a skipped-intent journal has left it as it was, or left one that replay rejects. |
| Reentrancy.AcceptedOrderly | src/operation/recovery_model/parse/transaction_records.rs:64-122 | Every accepted unfinished journal has ordered intents with at most one open completion on each side. |
| Reentrancy.ReentrantIff | src/operation/recovery_model/parse/transaction_records.rs:95-122 | Replay accepts everything a recovery sweep appends exactly on the journals whose rollback intents start at the highest commit intent. |
| Reentrancy.SkippedExample | src/operation/commit.rs:38-60 | A two-path journal that is accepted and to which recovery appends a record that is not. |
| Finishes.VerifyFinished | src/operation/recovery/finished.rs:6-38 | Success means every path shows what the outcome says, and is synchronized. |
| Finishes.DiscardUncommitted | src/operation/recovery/apply.rs:50-71 | Changes nothing, and accepts only paths nobody touched. |
| Finishes.CleanupArtifacts | src/operation/recovery/evidence.rs:11-46 | No slot and no retained backup is touched; an artifact goes only if it is the sole name of a file with the specified bytes, length, permissions and identity, or was never completed. |
| Finishes.CleansIff | src/operation/recovery/evidence.rs:11-46 | Which artifacts go and when cleanup goes ahead, said of the files and names. |
| Finishes.RetainableIff | src/filesystem/control/retained.rs:18-50 | A backup is retainable exactly if one of its two names is free and the other is the only name of the expected file. |
| Finishes.RetainBackup | src/filesystem/control/retained.rs:18-50 | The backup is in the state directory exactly once, moved or found there. |
| Finishes.RelocateBackups | src/operation/undo/receipt.rs:121-162 | Every backup the receipt names ends in the state directory and not beside its target. |
| Recovery.RecoverState | src/operation/recovery/apply.rs:23-48 | On any disk: success means every slot shows its journaled input, or after a recorded commit its output, in bytes, length and permissions; a slot in no state recovery may resolve makes it fail with the journal in place; on an interrupted transaction the outcome is recorded durably. |
| Recovery.AcceptsIff | src/operation/recovery/apply.rs:23-48 | The paths recovery goes past, said of the files: unfinished with an intent, one of the four resolvable states; finished, the outcome; without an intent, the input and no two-link state. |
| Recovery.Recover | src/operation/recovery/mod.rs:28-127 | A rejected journal changes nothing; from any accepted prepared one success means every slot shows its outcome's bytes, length and permissions, and a slot that is neither fails it with the journal in place; on an interrupted transaction success is the concluded transaction, and any other end is as good a start. |
| Runs.RecoverUntilDone | src/operation/recovery/mod.rs:28-127 | Recovery interrupted after any step, any number of times, ends in the same tree: every output if a commit was on record, every input otherwise. |
| Runs.RecoverPending | src/operation/recovery/mod.rs:28-127 | Repeated recovery completes, or after a skipped intent may leave a rejected journal at the cost of another fault. |
| Runs.CommitRun | src/operation/commit.rs:30-80 | All or restored: a commit with any crashes and recoveries after it ends with every output or every input, unless replay rejects the journal in one of the two described ways, one with every input in place, the other, after three faults, with each slot at its input or output; without a fault it ends committed. |
| Runs.RetainedRun | src/operation/commit/retained.rs:22-146 | A retained commit resolves to all outputs with receipt and every backup exactly once, or to all inputs with neither, with the same two exceptions. |
| Safety.InputKept | src/operation/commit/rollback.rs:12-150 | Until a commit is on record every input's bytes and permissions are in its slot or its backup, in every state a crash may leave. |
| Safety.BackupKept | src/filesystem/control/retained.rs:18-50 | After a retained commit they stay in the backup, beside the target or in the state directory, never in both. |
| Safety.UndoKept | src/operation/undo/rollback.rs:53-95 | Throughout an undo they are in the slot or the retained backup, in every state a crash may leave. |
| Safety.ForeignSafety | src/operation/recovery/apply.rs:97-145 | From any accepted journal and any disk, recovery gives a slot a new state only if it held exactly the journaled output (hash, length, permissions, identity, or absence) or an exact two-link state of it or of the input, under a durable intent; what comes is absence or a file with the input's hash, length and permissions. |
| Safety.ForeignRefused | src/operation/recovery/apply.rs:97-145 | A slot that shows neither input nor output nor a two-link point makes recovery fail and keep its journal. |
| Safety.UndoForeignSafety | src/operation/undo/recovery/converge.rs:62-114 | From any undo journal and any disk, undo recovery gives a slot a new state only from exactly its committed state, and only absence or the file retained for it. |
| Projections.PreparedReplay | src/operation/stage.rs:23-69 | Every prefix of the journal preparation writes is accepted, and the whole replays to a prepared transaction of exactly the staged paths. |
| Preparing.PreparationRecovered | src/operation/recovery/apply.rs:50-71 | Recovery of an interrupted preparation, in the same boot or not, leaves every slot untouched, and complete leaves no journal; after a power loss no artifact either, unless a job leaked. |
| Staging.StageOne | src/operation/stage.rs:91-169 | A staged path's artifacts have exactly the recorded evidence; a failed job removes its own or says it could not. |
| Preparation.Primary | src/operation/stage.rs:171-200 | The reported error is the lowest failing index's, with no error below it. |
| Preparation.Collect | src/operation/stage.rs:171-200 | All staged paths, or the primary error after the staged ones are cleaned up. |
| Preparation.StageAll | src/operation/stage.rs:23-69 | Artifacts are written only behind durable intents for every path. |
| Preparation.Prepare | src/operation/mod.rs:81-176 | Success is a transaction ready to commit with exactly the planned paths; a plain error leaves nothing but perhaps the empty journal file that failed to be created, unless a job leaked; every other end is one recovery discards. |
| Preparation.LeaksIff | src/operation/stage.rs:171-200 | Artifacts may be left exactly if a job panicked, or one failed to clean up behind a lower failing job. |
| PreparationRuns.RecoverUnpreparedUntilDone | src/operation/recovery/apply.rs:50-71 | After a failed preparation, a leaked job included, kills, power losses and recoveries in any order end with every slot showing its input and the journal gone. |
| Applications.ApplyRun | src/worktree.rs:87-89 | Preparation and commit of a projected plan, with every kill, power loss and recovery, end with all outputs or all inputs and no journal, or under one of the two rejected journals with the inputs or, after three faults, inputs and outputs; without a fault, all outputs. |
| PlanRuns.ApplyPlan | src/worktree.rs:87-89 | From the operations on: the touched slots end with the plan's simultaneous meaning or with the tree as it was, with the same exceptions. |
| Restores.RestorePath | src/operation/undo/rollback.rs:53-95 | On any disk: removal of exactly the committed create, or the retained backup into the slot, ends in exactly the receipt's before state, durably, or stops in a listed state. |
| Restores.ReplaceFromKept | src/filesystem/control/retained.rs:74-93 | The retained backup takes the slot in one rename, both directories synchronized. |
| Restores.InstallFromKept | src/filesystem/control/retained.rs:121-128 | A deleted file's retained backup is linked and then moved into the absent slot. |
| Restores.FinishFromKept | src/filesystem/control/retained.rs:131-149 | The retained name of an exact two-link restore goes, durably; the target directory stays as synchronized as it was. |
| UndoSteps.RedoPath | src/operation/undo/rollback.rs:30-35 | On any disk: a path is restored behind a durable intent and recorded only once durably restored. |
| Undos.VerifyReceipt | src/operation/undo/rollback/verify.rs:11-34 | Read faults aside, accepts exactly the disks where every slot and backup has the receipt's evidence. |
| Undos.OpenJournal | src/operation/undo/rollback.rs:143-185 | The undo journal is exclusive and bound to the receipt before the first intent; a failure leaves at most the journal. |
| Undos.Rollback | src/operation/undo/rollback.rs:21-50 | On any disk: any differing slot or backup fails and changes nothing; paths change only as their own restoring does; success is every slot exactly at the receipt's before state, durably, receipt and journal gone. On a retained commit only faults make it fail, and recovery can start from what it leaves. |
| UndoReplay.FinishedUndo | src/operation/undo/recovery/replay.rs:11-131 | A finished undo journal has restored every path of its receipt. |
| UndoReplay.UndoParsesIff | src/operation/undo/recovery/replay.rs:35-117 | Replay accepts exactly the undo journals of a language stated without it: a header naming a receipt, no operation and some paths, then unrepeated intents, unrepeated completions of intents, and the end once every path is completed; and it holds exactly what they record. |
| Convergence.ConvergePath | src/operation/undo/recovery/converge.rs:62-114 | On any disk, a path is dealt with exactly as its verdict says, or left in one of the states listed for it; a path in conflict with the journal is untouched, and success means the slot shows the receipt's before state. |
| Convergence.Complete | src/operation/undo/recovery/converge.rs:47-60 | On any disk, the loop deals with every path in descending order, or stops within one, no higher path being in conflict; success means every slot shows the receipt's before state. |
| Convergence.VerifyUndone | src/operation/undo/recovery/converge.rs:18-44 | Success means every slot shows exactly the receipt's before state and is synchronized. |
| UndoVerdicts.ConvergedAt | src/operation/undo/recovery/converge.rs:47-60 | What the loop does to one path depends on that path's own entries and records alone. |
| UndoVerdicts.UndoJudgeIff | src/operation/undo/recovery/converge.rs:62-114 | Each undo verdict is one state of the slot: shown before state, committed state, two-link point of the retained backup; any other is a conflict. |
| UndoResumptions.JudgeOpen | src/operation/undo/recovery/converge.rs:62-114 | In every state the undo journal allows the verdict is feasible and never a conflict. |
| UndoResumptions.HaltedOpen | src/operation/undo/recovery/converge.rs:62-114 | From a steady disk recovery can start again wherever an interruption stops it. |
| UndoResumptions.DurableIff | src/operation/undo/recovery/converge.rs:85-95 | Once every path has been dealt with the slots show the before state; they do so durably exactly if recovery began on a steady disk. |
| UndoRecovery.RecoverUndo | src/operation/undo/recovery.rs:21-77 | On any disk with an unfinished journal of the receipt that holds an intent, success means every slot shows its before state, and a slot that shows neither before nor committed state nor the two-link point fails it with journal and receipt in place; a rejected or unbound journal changes nothing. On an undo's disk one without a durable intent is dropped with its receipt kept, any other completed; completed it is durable if and only if the disk was steady. |
| UndoRecovery.ForeignJournal | src/operation/undo/recovery/replay.rs:24-33 | A journal outside that language, or unfinished and naming another receipt, another number of paths or a receipt that is gone, makes recovery fail and change nothing. |
| UndoRuns.UndoRun | src/operation/undo/recovery.rs:21-77 | All or nothing over any number of kills, failures and power losses, recoveries in the same boot included, whenever they begin on steady disks: every slot committed with the receipt there, or every slot restored and it gone; durable as a whole if each recovery follows a reboot. |
| UndoFailures.RefusedStays | src/operation/undo/recovery/converge.rs:75-84 | A path on record as undone that does not show it makes every recovery fail and change nothing. |
| UndoFailures.UnsyncedUndo | src/operation/undo/recovery/converge.rs:85-95 | For every path of every retained commit: rollback stopped before the synchronization, recovery in the same boot and a power loss end in such a disk, the committed state in the slot and the bytes of a deleted file lost. |
| RoundTrips.CommitThenUndo | src/operation/undo/rollback.rs:21-50 | Undo of a successful retained commit gives every slot the bytes, permissions and absence it had before the commit, over the same runs. |
| Invalidation.LivedHistory | src/operation/undo/rollback.rs:113-126 | Any sequence of resolved transactions and undos on one disk, each creating files with identities of its own, is a history in which no slot gets back a staged file. |
| Invalidation.BackupsStayNew | src/operation/undo/rollback.rs:113-126 | No transaction of such a sequence stages a file an earlier one backed up. |
| Invalidation.NeverAgain | src/operation/undo/rollback.rs:113-126 | In a history a slot that has lost a staged file never shows it again. |
| Invalidation.RefuseForever | src/operation/undo/rollback/verify.rs:11-34 | After any such sequence: once a slot the receipt records as present has been replaced or removed, every later undo of it fails and changes nothing. |
| Stores.StoreUsage | src/operation/undo/receipt/store.rs:30-54 | Succeeds exactly if the receipts' count and the sum of their retained and their own bytes are within bounds and each can be read, with the exact count and sum in any listing order. |
| Stores.PrepareRetention | src/operation/undo/receipt.rs:84-116 | Grants room exactly when a valid policy and the store allow one more receipt with its retained and own bytes; the store stays readable exactly if the new receipt fits the journal byte limit. |
| Stores.NextKeeps | src/operation/pending.rs:7-26 | Every step of a process under the root lock, every crash and every power loss keeps the store invariant. |
| Stores.RunKeeps | src/operation/undo/api.rs:88-110 | In every run at most one journal is active and receipts stay within their count and byte bounds. |
| Plans.Compiler.Register | src/plan/compile.rs:80-164 | Fails only on a plan that reads or writes a path twice; otherwise the maps hold exactly the endpoints so far. |
| Plans.Compiler.ValidateCrossRoles | src/plan/compile/endpoints.rs:56-82 | Accepts exactly the plans in which a path read and written is one modify's or two renames'. |
| Plans.Compiler.BuildTransitions | src/plan/compile/endpoints.rs:84-152 | One transition per touched path in ascending key order, from its only reader and only writer. |
| Plans.CompilePlan | src/plan/compile.rs:57-63 | Succeeds exactly when no path is read or written twice and every path both read and written is the same modify's or two renames'; so on all renames with distinct sources and distinct destinations, chains and cycles included. |
| Plans.RenamesCompile | src/plan/compile/endpoints.rs:56-82 | Every plan of renames with pairwise distinct sources and pairwise distinct destinations compiles. |
| Plans.CompilableKinds | src/plan/compile/endpoints.rs:56-82 | Compilability on action kinds: at a path both read and written, the same modify or two renames. |
| Meanings.MeaningUnique | src/plan/compile.rs:57-63 | The simultaneous meaning of a plan is one tree. |
| Meanings.ExecuteNext | src/plan/compile/endpoints.rs:56-82 | Running one more action succeeds exactly when no action still to run reads what it overwrites, and adds that action to the partial meaning. |
| Meanings.OrderIffAcyclic | docs/transaction-model.md:16-20 | Some one-at-a-time order runs exactly when no cycle of actions overwrites what its members read, and every order that runs gives the simultaneous meaning. |
| Permutations.RenamesPermute | src/operation/projection/assemble.rs:94-154 | Unedited renames permute the bytes and permissions of the touched paths and change no other path. |
| Assembly.Assemble | src/operation/projection/assemble.rs:21-92 | The loops with their early budget exits compute exactly the all-at-once projection. |
| Assembly.Changes | src/operation/projection/changes.rs:13-78 | One record per operation from sources and outputs by spelling, or a refusal if one is missing. |
| Assembly.Project | src/operation/projection.rs:35-65 | For any number of workers and interleaving, the result is that of one-by-one snapshots of the compiled transitions. |
| Assembly.TotalLength | src/operation/projection/assemble.rs:21-92 | The byte totals the budgets bound are the lengths of all files put together. |
| Translations.SnapshotsReady | src/operation/projection.rs:75-157 | All snapshots succeed exactly when every input matches and every written path is free or read as well. |
| Translations.ProjectionExact | src/operation/projection/assemble.rs:21-92 | Projection succeeds exactly on ready, uniformly spelled plans whose outputs and byte totals are within every limit, each input read with its exact evidence, and its paths and records are exactly those of the plan. |
| Translations.MakesIff | src/operation/projection/assemble.rs:156-218 | An output is made exactly if, unedited, it is within the output limit; edited, if its source is within source and output limits, the edits apply, and their count and the result are within limits; and it is that file. |
| Compilation.SerialCommitMeans | src/operation/projection/assemble.rs:94-154 | Committing the transitions one after the other gives the simultaneous meaning of the operations, chains and cycles included. |
| PreparedPlans.OperationsSeen | src/operation/recovery_model/operation.rs:32-77 | Replay accepts every operation record of a projected plan and expects exactly the plan's endpoints. |
| PreparedPlans.CompiledCoherent | src/operation/recovery_model/validate.rs:136-170 | Records and paths of a compiled plan agree as replay demands, so its preparation replays. |
| Scheduler.BoundedWorkerCount | src/scheduler.rs:27-33 | At most the jobs and the hard maximum, and none only without jobs. |
| Scheduler.Pool.Advance | src/scheduler.rs:73-104 | Every access of a worker keeps the pool invariant and brings every run nearer its end. |
| Scheduler.Pool.Joined | src/scheduler.rs:40-71 | When no worker can move all have stopped, every admitted job has its own result and no other has one. |
| Scheduler.MapOrdered | src/scheduler.rs:40-71 | For every worker count and interleaving it ends with one result per input: the jobs of a prefix ran, the rest were cancelled only because one of those failed. |
| Scheduler.FirstIsSequential | src/scheduler.rs:73-104 | The lowest failing job holds its own error and has only successes below it. |
| Scheduler.ScheduleIndependent | src/operation/projection.rs:159-182 | What projection reports is what running the jobs one by one would report, in every run. |
| Scheduler.PrimaryIndependent | src/operation/stage.rs:171-200 | What staging reports is the same error. |
| Scheduler.CollectFirst | src/operation/projection.rs:159-182 | All values, or the first failure with only successes before it. |
| Scheduler.CollectPrimary | src/operation/stage.rs:171-200 | The first failure that is not a cancellation, and every value for cleanup. |
| Codec.ReadFile | src/operation/journal/replay.rs:15-84 | Reads exactly the files within the limit whose complete lines seal one schema's records in sequence; what it reads has its header first and only first. |
| Codec.ReadIff | src/operation/journal/replay.rs:39-84 | Lines read as these records exactly when each decodes to its record with this schema, its own index and matching checksum, the header first and only first. |
| Codec.WrittenRead | src/operation/journal/replay.rs:15-84 | Records sealed one after the other, header first and only first, read back. |
| Codec.CompletePart | src/operation/journal.rs:199-203 | The part `resume` keeps ends at the last newline and holds the same lines. |
| Codec.TruncatedRead | src/operation/journal/replay.rs:15-37 | Losing any tail of what was appended to any readable file leaves the earlier records and those whose lines are complete. |
| Codec.ResumedRead | src/operation/journal.rs:189-213 | A journal cut anywhere, resumed and appended to reads as its durable records followed by the appended ones. |
| Codec.Writer.Append | src/operation/journal.rs:159-187 | Refuses, changing nothing, exactly if poisoned, if a header is not first or the first record no header, or if the line does not fit; otherwise success appends one sealed line and a failure leaves part of it and a writer that refuses everything. |
| Codec.Writer.Resume | src/operation/journal.rs:189-213 | The file is cut to its complete lines and the schema and next sequence number are the file's own. |
| Metadata.JsonBudget.PushChildren | src/metadata.rs:79-105 | Refuses only what the whole walk would refuse, and keeps counted nodes plus stack within the limit. |
| Metadata.JsonBudget.VisitValue | src/metadata.rs:52-77 | Succeeds exactly when counted nodes plus the tree's size and the tree's height are within the limits. |
| Metadata.JsonBudget.VisitMap | src/metadata.rs:28-50 | Succeeds exactly when all values and the encoded bytes fit. |
| EditJournal.ParseJournal | src/transaction/recovery_model.rs:32-108 | The loop over its own sets computes exactly the replay function. |
| EditJournal.ParsesIff | src/transaction/recovery_model.rs:32-108 | V1 replay accepts exactly the journals of a language stated without it, each record by what must and must not precede it, and holds exactly what they record. |
| EditJournal.ParseMore | src/transaction/recovery_model.rs:49-96 | After preparation a journal replays record by record on top of what it holds. |
| EditStore.Store.RemoveArtifact | src/filesystem/target.rs:207-224 | An absent artifact is left alone, unsynchronized. |
| EditTransactions.CommitOne | src/transaction/commit.rs:114-199 | Success is a durable replaced target; the failure state describes the target truly; the journal says what recovery must do. |
| EditTransactions.ClassifyFailedRename | src/transaction/commit.rs:201-228 | `Changed` and `Unchanged` are read off the target. |
| EditTransactions.RollbackOne | src/transaction/rollback.rs:45-104 | The target returns durably to its old bytes behind a durable intent. |
| EditCommits.Commit | src/transaction/commit.rs:23-66 | `Ok`: every target new and nothing left. An error without the recovery flag: every target old and nothing left. Always: the journal decides every target. |
| EditCommits.RollbackCommitted | src/transaction/rollback.rs:13-43 | Success leaves every target old and nothing behind. |
| EditCommits.Abort | src/transaction/commit.rs:69-98 | Success leaves every target old and nothing behind. |
| EditRecovery.RestoreFile | src/transaction/recovery.rs:115-160 | Records an intent, restores a verified backup durably, records completion, in this order. |
| EditRecovery.RollbackUnfinished | src/transaction/recovery.rs:87-113 | From any state a target changes only from exactly the new bytes under an intent with exactly the old ones backed up; success leaves every intended target old. |
| EditRuns.Recover | src/transaction/recovery.rs:17-85 | From any state the same; after a crash of a commit or rollback a completed recovery leaves every target new if the commit was finished on record, else every target old. |
| EditRuns.CommitThenRecover | src/transaction/recovery.rs:17-59 | One crash anywhere and one completed recovery: all new or all old, the journal gone. |
| EditRuns.ReadableIff | src/transaction/recovery_model.rs:82-87 | The journal can be read again after a recovery that crashed exactly if it restored no file that had a rollback intent already. |
| EditRuns.SecondCrash | src/transaction/recovery.rs:128-136 | A state recovery must act on in which a file has one, so that a second crash leaves a journal nobody can read. |

## Left out
- Capability path traversal, symbolic link, reparse point, device and reserved-name checks: only their refusal shows, as an unsafe probe.
- SHA-256, the receipt checksum and the journal line checksum are free constructors, that is, collision free; the portable key of a path is a field of its name.
- Edit application, UTF-8 checking and the JSON encoding are parameters; plan validation in `weavatrix_refactor_plan` is not part of this model.
- Label lengths, contract hashes as text, index width conversions, hash parsing, error codes and report getters.
- Byte limits on reading evidence are folded into read faults; journal byte limits are modelled in `Codec` and, for V3 runs, as an append that may be refused.
- Every transaction of one disk touches the same path indices.
- Invalidation.RefuseForever: takes it as given that a transaction's new files have identities no earlier transaction used; a file system that reuses the identity of a removed file is not modelled.
- Link counts cover a path's own four names and a set of files linked elsewhere.
- Staging jobs act on disjoint names, so they run in index order with cancellations and panics chosen freely; the scheduler itself is modelled in `Scheduler` for every interleaving.
- Retained.WriteReceipt: does not model a torn receipt file, which recovery refuses to read; content and checksum appear together or not at all.
- A rename between two directories is one step, durable once either directory is synchronized.
- UndoRuns.UndoRun: claims nothing of the slots once a recovery has begun on a disk that is not steady, for the reason proved in `UndoFailures.UnsyncedUndo`; `UndoRecovery.RecoverUndo` says what that recovery itself does.
- PreparationRuns.RecoverUnpreparedUntilDone: claims that slots and journal are as they should be, not that every artifact is gone; that is claimed after power losses only (`Preparing.PreparationRecovered`).
- Directories of two paths are synchronized one by one even if they are the same directory, so a path may be taken for less durable than it is.
- Runs.CommitRun: does not complete on the two journals replay rejects; which they are is part of the contract.
- EditRuns.CommitThenRecover: one crash only, for the reason proved in `EditRuns.SecondCrash`; durability of the result after a mere process kill is not claimed, because recovery does not synchronize a target it finds old.
- V1 planning and staging: its prepared state is the starting point.
- `discard_undo`, which is not re-entrant after a crash, legacy V2 journals beyond schema preservation on resume, and the refusal of two active journals, which `Stores.RunKeeps` shows never happens.
- Stores.RunKeeps: all processes are configured with the same store bounds.
- Windows best-effort synchronization and hostile writers between a check and a rename.
- Benchmarks, adapters and tools.
