# JVC core: recovery journal, governed writes and their neighbours

A Dafny model of the governed execution core: every change of a governed file is journaled before
it happens, can be undone newest first, survives a crash at any point, and fails closed when the
bytes on disk cannot be accounted for. `dafny verify dfyconfig.toml` verifies the whole project.

## How it is organised

The recovery core, in reading order:

- `Journal.dfy`: what is on disk (governed files, receipts, damaged receipt files, backups) and the
  decisions taken by reading it: reconciliation verdicts, chain references, heads, links.
- `Protocol.dfy`: governed writes, rollbacks and recoveries of one place (project and path) as a
  machine of atomic durable steps. Any number of processes interleave under the place's lock, any
  of them may crash between two steps, and the rest of the store changes underneath them.
- `Evidence.dfy`: the same decisions told from the bytes and the receipts alone.
- `Lineage.dfy`, `Safety.dfy`: the undo stack a disk represents, the phases it can be in between two
  steps, and what each single step does to them.
- `UndoStack.dfy`, `Trails.dfy`, `Register.dfy`: theorems over whole runs, over single operations and
  sessions of them, and the governed file as a compare-and-swap register.
- `Lifecycle.dfy`: the life of a receipt in every run, outside edits included.
- `Recovery.dfy`, `Crashes.dfy`: restart recovery write by write, and what it makes of a crash.
- `Scanning.dfy`: what one scan does and reports beside live operations, told from the bytes before it.
- `HalfRollback.dfy`: the one crash window that only recovery closes, with its exact condition.
- `Unblocking.dfy`: a blocked place whose file the operator has put back.
- `Settling.dfy`: what a write settles before it begins, what it reports, and when that lets it through.
- `Clearing.dfy`: what settling ahead of a write or a rollback leaves and reports, told from the bytes before it.
- `WholeStore.dfy`: all places of one store at once.
- `Retention.dfy`, `PruningRuns.dfy`, `Unlinking.dfy`: pruning between operations and beside running ones, unlink
  by unlink, and what any single unlink does.
- `Scripts.dfy`, `Witnesses.dfy`: operations written out step by step, and runs from an empty store into
  each of the states the failures start from.
- `RecoveryStore.dfy`, `Executor.dfy`: the store and the executor as classes that update their state
  in place. Each operation that drives the journal leaves a ghost trail of the disks it passes
  through, and its contract says that the trail is legal in the protocol, so every theorem about
  trails is a theorem about it.

Its neighbours: `Capability.dfy` (single-use operator authority), `GovernedWrites.dfy` (authorization
and critical section in one write), `Tokens.dfy` (its wire form),
`Continuity.dfy` (revision compare-and-swap), `Guard.dfy` (the pre-write guard), `Truncation.dfy`
(byte-exact output) and `Routing.dfy` (whole-token alias matching).

## What the main theorems assume

- `Orderly` runs: a writer or rollbacker enters only when no rollback of the place is half finished.
  That is what a completed recovery leaves (`Crashes.RecoverySettles`). Over a stack that is not empty
  the assumption is needed: without it the link of the next write is wrong (`HalfRollback.LinkCorrectIff`),
  and a place can end up with two heads and no way to roll back (`Witnesses.ForkHappens` is such a run).
  Over an empty stack the next recovery puts a write right (`HalfRollback.EmptyStackHeals`).
- `docs/recovery.md:35` calls rollback the resolution path of a blocked target. Of a target left alone
  that is false: nothing governed ever changes such a file again (`UndoStack.FrozenForever`), and
  `Witnesses.BlockedHappens` is a run into that state. After an outside edit it is true exactly if the
  file has the bytes the newest verified write left and the blocking receipt is not a write made on that
  very one (`Safety.BlockedSelectsIff`). So a place blocked by a rollback receipt can be rolled back, write
  by write, once its newest bytes are put back, and one blocked by a write linked to the top cannot. Either
  way the blocking receipt stays and stops every write (`Unblocking.PutBackVerdict`,
  `Unblocking.WritesStayDenied`). The model follows the code.
- A write whose new bytes equal the old ones is a write like any other; where that matters the
  theorems say so (`Crashes.WriteLost`, `Register.AtMostOneWinner`).
- A decision whose writer crashed between its artifact and the state file can never be recorded
  afterwards (`Continuity.StrandedForever`), and every valid name can be stranded that way
  (`Continuity.StrandingHappens`). A guard manifest approved before its intent was bound can never move
  again (`Guard.ApprovedMovesIff`), and every capture can be approved so (`Guard.ApprovedUnbound`).
- A nonce serves once unless a power loss takes its consumed record before the directory entry was
  durable: the code answers True even when the directory sync failed. `Capability.LostEntryReplays` shows
  that then the same token authorizes the write again.
- A scan spares the places others work at as long as rollbacks undo writes of their own place
  (`Scanning.AtHome`), which is how every operation names them (`Crashes.UndisturbedAtHome`,
  `Crashes.TrailKeepsUndisturbed`). What is told "in bytes" about listings assumes that they give write
  receipts before rollback receipts, as the code sorts them.
- The documentation of `prune` names three terminal states; the code also removes SUPERSEDED receipts
  (`src/jvc/recovery/store.py:124-126`), and so does the model.
- Pruning takes no lock. Where neither modification times nor names go back along the stack and no rollback
  of the place is unfinished, each of its unlinks is one that runs stand, so a prune stopped anywhere leaves
  an undo stack (`PruningRuns.PruneMoves`, `PruningRuns.StoppedPruneKeepsStack`). Out of that order it can cut
  the stack in two (`Unlinking.UnlinkSettledIff` says exactly when), and can even make a blocked file
  selectable again (`Unlinking.UnlinkUnfreezesIff`, with a run into such a state in
  `Witnesses.PruneUnfreezes`). Nothing in the code keeps times and names in order.

## Model

| member | source | states |
|---|---|---|
| UndoStack.UndoStackRefinement | src/jvc/recovery/store.py:411-495 | In every orderly run, wherever nothing is pending, blocking or half finished, the verified writes are one linear history: each link names the one before, each preimage is the postimage of the one before, the oldest stands on the file as it was before any governed write, and the file is what the newest left |
| UndoStack.RunKeeps | src/jvc/execution/executor.py:554-645 | Every state of an orderly run from an empty store represents some stack, and the stacks move only by one push when a write records its replacement and one pop when a rollback records its restoration |
| UndoStack.RunKeepsFrom | src/jvc/execution/executor.py:554-645 | The same for orderly runs that start from any represented state |
| UndoStack.StepKeeps | src/jvc/execution/executor.py:554-634 | One step of any process, a crash, or work on other files keeps the invariant; a blocked place stays blocked with its bytes |
| UndoStack.FrozenForever | src/jvc/recovery/store.py:572-598 | Once a receipt of the place is RECOVERY_REQUIRED no later write, rollback or recovery changes the file or unblocks it |
| UndoStack.OneAtATime | src/jvc/recovery/store.py:355-377 | Recovery decides, and anybody writes, only while no other process is inside the target's critical section |
| UndoStack.LiveWriterSucceeds | src/jvc/recovery/store.py:239-287 | A writer or rollbacker past its checks and not crashing takes the successful step every time; the writer ends VERIFIED with the digest of its content |
| UndoStack.BackupsConserved | src/jvc/recovery/store.py:193-237 | At every step and crash point each write over existing bytes has exactly those bytes in its backup |
| WholeStore.EveryPlaceRunsAlone | src/jvc/execution/executor.py:554-645 | In every run of a whole store, with processes at all its places interleaving and crashing, what each place sees is an orderly run of the protocol, so the theorems about one place hold of every place at once |
| WholeStore.EveryPlaceHasItsStack | src/jvc/recovery/store.py:411-495 | In such a run the verified writes of every clear place are one linear history ending in its file |
| WholeStore.WorkTouches | src/jvc/recovery/store.py:687-702 | No step of a process at one place changes a file, receipt or backup of another |
| Safety.WorkKeeps | src/jvc/recovery/store.py:864-1011 | Every atomic step of the lock holder keeps the represented stack, or pushes or pops one receipt; only the replacement and the restoration touch the file |
| Safety.HeadIsTop | src/jvc/recovery/store.py:776-782 | Whatever contents repeat and whatever the clocks say, the heads for a digest are the top of the stack if it left that digest, else none |
| Safety.SelectsTop | src/jvc/recovery/store.py:736-792 | In a settled place a rollback selects a receipt if and only if the stack is not empty, and it is the top |
| Safety.BlockedSelectsIff | src/jvc/recovery/store.py:776-792 | Whatever was done to a blocked file by hand, a rollback selects the top of its stack if and only if the file has the bytes the top left and the blocking receipt is not a write made on the top, and selects nothing else |
| Safety.BlockedSelectsNothing | src/jvc/recovery/store.py:776-792 | While a blocked file still holds the bytes that blocked it, no receipt is selected |
| Unblocking.OperatorPutsBack | src/jvc/recovery/store.py:572-598 | An outside edit that gives a blocked file the bytes of the top of its stack leaves the stack settled but for the blocking receipt |
| Unblocking.PutBackVerdict | src/jvc/recovery/store.py:864-1011 | A rollback of such a place that runs to its end succeeds if and only if the journal is undamaged, the digest is current, there is a write to undo and the blocking receipt was not made on it; it undoes the top, and the place stays blocked in the same situation one write further down |
| Unblocking.WritesStayDenied | src/jvc/execution/executor.py:562-581 | Every write of such a place is denied and changes nothing |
| Safety.LinkIsTop | src/jvc/recovery/store.py:440-495 | The link computed for a write is the top of the stack; over an empty stack it names nothing that stands |
| Safety.ReconcileKeeps | src/jvc/recovery/store.py:600-685 | Settling a pending receipt blocks exactly when the file holds bytes its stack does not account for, and otherwise leaves the same stack settled |
| Evidence.VerdictInBytes | src/jvc/recovery/store.py:600-685 | The verdict on an interrupted receipt on any disk, told from the bytes of the file and of the backup |
| Evidence.LinkInWords | src/jvc/recovery/store.py:440-495 | The link of a new write, told from the receipts: the one verified write that left the content and that no standing write was made on, or for a creation the settled write with the latest clock, names deciding ties |
| Evidence.SelectionInWords | src/jvc/recovery/store.py:736-792 | What a rollback selects, told from the receipts: that one write unless an unsettled write was made on it, nothing where no write left the content, and ambiguity otherwise |
| Trails.WritePushes | src/jvc/execution/executor.py:582-645 | A successful write pushes its receipt on the stack, the file is its content, and its caller had presented the digest of the file |
| Trails.RollbackPops | src/jvc/recovery/store.py:864-1011 | A successful rollback undoes the top and nothing else, and restores the very bytes, or the absence, that write replaced |
| Trails.RollbackVerdict | src/jvc/recovery/store.py:794-910 | From every phase but a half finished rollback, after any crash, a rollback that runs to its end undoes the top if and only if the journal is undamaged, the presented digest is the file's, the file is accounted for, and there is a write to undo; otherwise it is denied |
| Trails.UndoAll | src/jvc/recovery/store.py:736-759 | As many rollbacks as writes give back the file as it was, for any contents, repeated ones included, and undo the writes newest first |
| Crashes.WriteCrashTrichotomy | src/jvc/recovery/store.py:600-647 | From any phase that accounts for the file and is not half finished, crash a write after any step and complete a recovery: as if never run, as if finished, or the new bytes blocked by the write's own receipt, the last exactly when the crash fell between the replacement and its record and the bytes changed |
| Crashes.RollbackCrashTrichotomy | src/jvc/recovery/store.py:649-702 | The same for a rollback: not run, finished, or the restored file blocked by the rollback's own receipt, the last exactly between the restoration and its record when the content changed |
| Crashes.TrailKeepsUndisturbed | src/jvc/recovery/store.py:156-169 | Every step of an operation names its receipts for what they are and leaves other places' rollbacks apart from its writes |
| Crashes.RecoverKeepsPlace | src/jvc/recovery/store.py:294-391 | A completed recovery never changes the file and leaves the same stack, settled, or blocked if the file holds unaccounted bytes |
| Crashes.RecoverySettles | src/jvc/recovery/store.py:497-534 | What a full recovery leaves has nothing pending and no rollback half finished |
| Crashes.VisitIsTrail | src/jvc/recovery/store.py:361-377 | What the scan writes for one receipt is one trail of a recovering process under the lock of its target |
| Crashes.ScanIsGuarded | src/jvc/recovery/store.py:355-377 | Every durable write of a scan beside live operations is a step of the protocol inside the critical section of a place nobody else has locked, or the marking in place of a file that fails validation |
| Crashes.UndisturbedAtHome | src/jvc/recovery/store.py:156-169 | A store in which no place's rollbacks name writes of another, as every operation leaves it, is one whose busy places a scan spares |
| Scanning.ScanSparesBusy | src/jvc/recovery/store.py:361-377 | Where rollbacks undo writes of their own place, no disk a scan passes through has a receipt of a locked place in any other state than before |
| Scanning.ScanSettlesFree | src/jvc/recovery/store.py:294-391 | And after the scan the receipts of locked places are as they were and all others have their final state |
| Scanning.ScanReports | src/jvc/recovery/store.py:319-377 | Which list each receipt is in, told from the bytes on disk before the scan and the locked places: a lost or altered backup of an interrupted or verified write is required, whatever the file holds |
| Scanning.FinalInBytes | src/jvc/recovery/store.py:497-534 | The final state of each receipt, told from the bytes on disk: rolled back if a complete or completable rollback undoes it, blocking if it blocked or the bytes fail it, else settled by how far it had come |
| Scanning.RevivedBlocks | src/jvc/recovery/store.py:325-340 | A file that lacks only its state ends as a blocking receipt with all its facts, or rolled back if its rollback is complete |
| Scanning.ScanMarksAll | src/jvc/recovery/store.py:325-340 | Whatever is locked, a scan marks every file that lacks only its state and leaves those beyond repair |
| Recovery.RecoverReachesFinal | src/jvc/recovery/store.py:294-391 | A full scan, in any order within each kind of file, leaves exactly the final journal, with no receipt PREPARED or APPLIED and no file or backup touched |
| Recovery.RecoverRestartable | src/jvc/recovery/store.py:355-377 | After any prefix of a recovery's writes, deferrals included, the remaining journal has the same files and the same final journal |
| Recovery.RecoverIdempotent | src/jvc/recovery/store.py:687-702 | Interrupting a recovery after any of its writes and running a full one, or running two, gives the result of one uninterrupted run |
| Recovery.EachCountedOnce | src/jvc/recovery/store.py:317-391 | The four outcomes of a scan add up to the files of the listing, each file is in the list of exactly the outcome it had when the scan came to it, and nothing else is in any |
| Recovery.NothingRequired | src/jvc/recovery/store.py:378-391 | A full recovery that reports nothing as required leaves no blocking, damaged, PREPARED or APPLIED receipt of any target |
| Lifecycle.LifecycleIsMonotone | src/jvc/recovery/store.py:687-702 | In every run, with outside edits of files and backups, a receipt never vanishes, its facts never change, its state only climbs one fixed order, and it changes at most four times |
| Lifecycle.StepAges | src/jvc/recovery/store.py:794-862 | Every step moves each receipt along an edge of the lifecycle or not at all |
| Register.Linearizable | src/jvc/execution/executor.py:582-645 | The effective writes and rollbacks of a run are totally ordered, each presenting exactly the digest the one before left, and a clear file holds what the last one left |
| Register.OneEntryEach | src/jvc/execution/executor.py:554-645 | From taking the lock to its end each process adds exactly one entry to that order if it comes back committed or undone and none otherwise, and the entry names the digest its caller presented and the one its result left |
| Register.AtMostOneWinner | src/jvc/recovery/store.py:895-899 | Of two effective operations presenting the same digest, the first of which changed the content, the second comes only after the file returned to that digest |
| HalfRollback.LinkCorrectIff | src/jvc/recovery/store.py:690-702 | Over a stack that is not empty, with nothing pending or blocking, the link of the next write is the top if and only if no rollback of the place is half finished |
| HalfRollback.EmptyStackHeals | src/jvc/recovery/store.py:440-495 | Over an empty stack a write made on a half finished rollback, followed by the marking of its source, leaves the undo stack of that write alone |
| HalfRollback.ForkedLineage | src/jvc/recovery/store.py:776-782 | Over any half finished rollback with a standing write below it, a governed write of the same bytes succeeds unlinked; even after the source is marked there are two heads and every rollback is denied |
| Witnesses.HalfFinishedHappens | src/jvc/recovery/store.py:687-702 | There is an orderly run from an empty store to a half finished rollback with a standing write below it, for any two contents |
| Witnesses.ForkHappens | src/jvc/recovery/store.py:776-782 | And from there a write, without a recovery before it, to a place with nothing pending or blocking, two heads, and no selectable receipt |
| Witnesses.WriteLost | src/jvc/execution/executor.py:628-634 | Over every settled stack any write that changes the file can crash so that recovery has to block the place |
| Witnesses.BlockedHappens | src/jvc/recovery/store.py:632-640 | There is an orderly run from an empty store to a blocked place |
| Retention.SelectionSurvivesIff | src/jvc/recovery/store.py:1013-1043 | Whatever a prune removed, the next rollback still selects the top if and only if the top was kept and no kept receipt with the present content lost the receipt on top of it |
| Retention.RetentionKeepsUndo | src/jvc/recovery/store.py:1013-1043 | If modification times do not decrease along the stack, a prune removes its oldest writes and no others, and the rest is an undo stack of the same file |
| Retention.PruneKeepsBackups | src/jvc/recovery/store.py:1036-1042 | Stopped after any unlink, a prune leaves every kept write its backup, every incomplete or blocking receipt, and every orphan backup |
| Retention.SweepTold | src/jvc/recovery/store.py:1024-1043 | Over a full listing a prune takes exactly the receipts in one of the four settled states older than the cutoff that can be unlinked and their backups, each after a receipt that names it |
| PruningRuns.StackUnderPruning | src/jvc/recovery/store.py:1013-1043 | In every run with unlinks that meet `Prunable` and `Discardable` beside writes, rollbacks and recoveries, the verified writes left at a clear place are one linear history ending in its file |
| PruningRuns.PruneMoves | src/jvc/recovery/store.py:1024-1042 | With no rollback of the place unfinished, a prune over a listing in which what is due of the stack comes from the bottom up consists of such unlinks, and leaves the upper part of the stack standing after each of them |
| PruningRuns.StoppedPruneKeepsStack | src/jvc/recovery/store.py:1013-1043 | When neither modification times nor names go back along the stack, a prune by age stopped after any unlink leaves the file and an undo stack of it, in every phase with no rollback unfinished |
| Unlinking.UnlinkSettledIff | src/jvc/recovery/store.py:1036-1042 | Any one receipt of a settled place unlinked: what is left is a linear history ending in the file, and a stack operations can go on from, if and only if the receipt was off the stack, its bottom, or its top over a write that left the present content |
| Unlinking.UnlinkUnfreezesIff | src/jvc/recovery/store.py:1036-1042 | Any receipt but the blocking one unlinked at a blocked place: a rollback then selects a receipt if and only if the unlinked one was made on it, it left the bytes now there, and the blocking receipt was not made on it |
| Retention.UnfreezesIff | src/jvc/recovery/store.py:1013-1043 | The same for any set of receipts removed: exactly when they bared that one stack member alone |
| Witnesses.PruneUnfreezes | src/jvc/recovery/store.py:1013-1043 | There is an orderly run to a blocked place with nothing selectable in which unlinking the second receipt before the first makes a rollback select the first |
| PruningRuns.FrozenUnderPruning | src/jvc/recovery/store.py:1032-1034 | In runs with unlinks that meet `Prunable` a blocked file stays blocked with its bytes |
| RecoveryStores.RecoveryStore.ChainReferences | src/jvc/recovery/store.py:411-438 | The loop returns exactly the receipts referenced by APPLIED or VERIFIED writes of the place, and apart from them those referenced by RECOVERY_REQUIRED ones |
| RecoveryStores.RecoveryStore.FindSupersededId | src/jvc/recovery/store.py:440-495 | The link of a new write: the only unreferenced verified write with the present content or none, or for a creation the latest terminal write |
| RecoveryStores.RecoveryStore.FindLatestReceipt | src/jvc/recovery/store.py:736-792 | The receipt a rollback selects: no candidate, ambiguous lineage, or the single head that no doubtful link names |
| RecoveryStores.RecoveryStore.SavePreimage | src/jvc/recovery/store.py:193-237 | Refuses content over the backup limit; otherwise the backup is on disk before the PREPARED receipt, which records the present digest and the right link |
| RecoveryStores.RecoveryStore.NoteTargetReplaced | src/jvc/recovery/store.py:239-254 | PREPARED to APPLIED with the new digest, refused from any other state |
| RecoveryStores.RecoveryStore.RecordPostimage | src/jvc/recovery/store.py:256-287 | Refused unless incomplete; VERIFIED exactly when the file on disk carries the recorded digest, else RECOVERY_REQUIRED |
| RecoveryStores.RecoveryStore.FinalizeRollback | src/jvc/recovery/store.py:687-702 | The two terminal writes in order, the second only if the source is readable, whatever state it was in |
| RecoveryStores.RecoveryStore.ReconcileOne | src/jvc/recovery/store.py:600-685 | Settles a receipt exactly if the bytes on disk bear it out: a write must have its backup, byte for byte, and the file what the last recorded step left; otherwise RECOVERY_REQUIRED, whatever the state. A verified rollback marks its source |
| RecoveryStores.RecoveryStore.ReconcileTarget | src/jvc/recovery/store.py:704-734 | Leaves exactly the settled journal and nothing pending; required are exactly the receipts that blocked or that the bytes do not bear out, a lost backup included, reconciled exactly the others that were interrupted, both in the order of the listing |
| RecoveryStores.RecoveryStore.SupersedePending | src/jvc/recovery/store.py:794-862 | Settles the pending receipts in the order of the listing, leaves exactly the journal of those visits, and denies exactly if some interrupted receipt is not borne out by the bytes on disk, of an applied write by the file alone |
| RecoveryStores.RecoveryStore.Rollback | src/jvc/recovery/store.py:864-1011 | A legal trail of the protocol to its result; denied on damage, another digest or an obstructing receipt; on success the file is what the undone write had replaced and no other file changed, otherwise no file changed; failed leaves its own receipt blocking |
| RecoveryStores.RecoveryStore.DecideLocked | src/jvc/recovery/store.py:497-534 | One recovery decision writes exactly the disks of the specification and reports the matching outcome |
| RecoveryStores.RecoveryStore.Recover | src/jvc/recovery/store.py:294-391 | The scan passes through exactly the specified disks; its lists are told from the bytes on disk before it, disjoint, and with the verified count add up to the listing; receipts of places locked by others are as before on every disk of it, the others have their final state, and no repairable damaged file stays unmarked; orphans are exactly the backups no valid receipt names |
| RecoveryStores.RecoveryStore.Prune | src/jvc/recovery/store.py:1013-1043 | Leaves no VERIFIED, RECOVERED_UNAPPLIED, ROLLED_BACK or SUPERSEDED receipt older than the cutoff that can be unlinked, and every other receipt as it was; of the backups it takes exactly those named by receipts it took; on every disk in between each missing backup was named by a missing receipt; the count is the number of receipts gone |
| Executor.GovernedExecutor.HasBlockingState | src/jvc/recovery/store.py:572-598 | Blocks exactly on damage anywhere in the store or a blocking receipt of the target |
| Settling.ReportedIff | src/jvc/recovery/store.py:704-734 | Over a listing with writes before rollbacks, a receipt is reported as required exactly if it was blocking or its verdict is to block, and as reconciled exactly if it was pending and its verdict is not |
| Settling.AccountedClears | src/jvc/recovery/store.py:600-647 | From every phase in which the file is accounted for, settling reports nothing as required and leaves file and stack |
| Settling.DoomedBlocks | src/jvc/recovery/store.py:626-640 | From every phase in which it is not, something is reported |
| Clearing.ReportedInBytes | src/jvc/recovery/store.py:704-734 | What settling ahead of a write reports, told from the bytes on disk before it |
| Clearing.ClearedInBytes | src/jvc/recovery/store.py:704-734 | And the state of every receipt after it |
| Clearing.DeniedInBytes | src/jvc/recovery/store.py:794-862 | Which receipts stop a rollback, told from the bytes on disk before it, in whatever order they come |
| Clearing.OvertakenInBytes | src/jvc/recovery/store.py:794-862 | Ahead of a rollback nothing stops, intents are superseded, applied writes verified, interrupted rollbacks closed and the writes they undid marked, and nothing else changes |
| Executor.GovernedExecutor.Gate | src/jvc/execution/executor.py:562-581 | Reconcile-or-deny: refuses exactly on damage or a required receipt, leaves exactly the settled journal, and passes only an open place |
| Executor.GovernedExecutor.FsWrite | src/jvc/execution/executor.py:478-645 | Deferred exactly when the target is locked; denied exactly on damage or a receipt of the place that blocks or is not borne out by the bytes on disk; otherwise conflict, oversized or committed by the bytes of the file; a legal trail; committed means content, backup and linked verified receipt are in place, anything else changes no more than settling does |
| Executor.WriteVerdict | src/jvc/execution/executor.py:562-603 | In an undamaged store, from any phase of the place and after any crash, a write is denied exactly if the file is not accounted for and otherwise decided by the digest and size of the file |
| Executor.OutcomeInBytes | src/jvc/execution/executor.py:562-603 | The result of a write on any disk, told from the bytes of the file, of the backups and of the receipts |
| Executor.GovernedExecutor.FsRollback | src/jvc/execution/executor.py:647-678 | Deferred exactly when the target is locked; otherwise a legal trail, denied on damage, another digest or an obstructing receipt; it leaves every file unless it undid a write, and then only that file, which is what the write had replaced |
| Executor.QuietIsOpen | src/jvc/execution/executor.py:562-581 | A settled place of an undamaged store is open |
| Executor.FsWritePushes | src/jvc/execution/executor.py:582-645 | A write that came back committed pushed its receipt on the undo stack of the store |
| Executor.FsRollbackPops | src/jvc/execution/executor.py:647-678 | A rollback, after any crash, comes back undone exactly when undamaged, current, accounted for and with a write to undo, and it popped that write |
| GovernedWrites.Gateway.FsWrite | src/jvc/execution/executor.py:500-552 | The critical section runs exactly when the resolved path lies inside the project and is not secret-bearing and either a capability was consumed or neither project nor path nor resolved path needs one; the way there is one legal path of the capability protocol; it proposes exactly for a held project and a path off the control plane, and what it proposes, once signed, authorizes this very write; refused or proposed, no file, receipt or backup changes |
| GovernedWrites.Gateway.Authorize | src/jvc/execution/executor.py:500-552 | Everything before the critical section: passes exactly under the conditions above, along one legal path of the capability protocol |
| Capability.CallExtendsRun | src/jvc/policy/authority.py:375-494 | Such a path continues any run of the capability protocol by one process, so what holds of every run holds of every such call |
| Capability.SingleUse | src/jvc/policy/authority.py:450-494 | Over all interleavings, crashes, sync failures and power losses at most one call is answered True per nonce, unless a power loss took a synced record of it whose directory entry was not durable |
| Capability.LostEntryReplays | src/jvc/policy/authority.py:486-492 | For every authorized write there is a run in which a power loss takes its record after a failed directory sync and the same token authorizes the write again |
| Capability.GrantIsBacked | src/jvc/policy/authority.py:428-448 | Every True has claims that match the call, were signed with the operator's key and had not expired, and a synced consumed record of its own until a power loss takes it |
| Capability.RecordLasts | src/jvc/policy/authority.py:470-484 | A record is removed only by the process that created it, before its sync, or by a power loss that found its content or its directory entry not durable |
| Capability.BurntNonce | src/jvc/policy/authority.py:450-453 | A nonce whose consumer crashed after the sync authorizes nothing again, unless a power loss took its record before the directory entry was durable |
| Capability.PrivilegedWritesInject | src/jvc/execution/executor.py:500-552 | Completed writes to control-plane paths or held projects have claims that name their project, path, content, length and preimage, and map one to one into consumed nonces, but for nonces whose record a power loss took before its directory entry was durable |
| Capability.ConfirmationStore.ValidateAndConsume | src/jvc/policy/authority.py:375-494 | True exactly when proposal, token and call agree, the token has not expired, the nonce has no record and the content of the new one was synced; an admissible call leaves the nonce free only if a failed sync could be taken back, and spends or frees no other; the directory sync and the removal of the proposal included |
| Capability.ConfirmationStore.CreateRequest | src/jvc/policy/authority.py:279-326 | The proposal has the given nonce and expiry and, signed as it is by the operator, is admissible for this very write until it expires |
| Tokens.TokenRoundTrip | src/jvc/policy/authority.py:249-276 | For all claims bytes and any keyed hash, a signed token verifies and decodes to the same claims |
| Tokens.SignInjective | src/jvc/policy/authority.py:249-254 | Tokens of different claims differ, whatever the key |
| Tokens.StrippedShape | src/jvc/policy/authority.py:32-37 | Stripped base64url has only alphabet characters, never a length of one more than a multiple of four, and restoring the padding is exact |
| Tokens.AcceptedOnlyAsSigned | src/jvc/policy/authority.py:257-276 | Whatever verifies is a dotless body, a dot and the keyed hash of that body, and its claims are the body's |
| Continuity.GapFree | src/jvc/continuity/state.py:197-251 | Over all interleavings and crashes the committed mutations carry revisions 1, 2, 3, ... once each, and the state file the last |
| Continuity.OneWinner | src/jvc/continuity/state.py:344-350 | Of the callers naming the same expected revision at most one commits |
| Continuity.ArtifactsInStep | src/jvc/continuity/state.py:222-251 | No artifact is more than one ahead of the state, and every committed artifact is on disk with its revision |
| Continuity.StrandedForever | src/jvc/continuity/state.py:352-382 | A decision file nobody is recording is never overwritten and is recorded later if and only if it already was |
| Continuity.StrandingHappens | src/jvc/continuity/state.py:352-382 | For every valid name there is a run that leaves its decision file unrecorded with nobody recording it |
| Continuity.ContinuityManager.Init | src/jvc/continuity/state.py:138-168 | Initializes exactly once, at revision 1 |
| Continuity.ContinuityManager.TakeCheckpoint | src/jvc/continuity/state.py:191-251 | Commits exactly when initialized, at the named revision if one is named, with the expected handoff on disk, and otherwise changes nothing and says why in order; the artifact first, then the state, both with the next revision |
| Continuity.ContinuityManager.ReconcileHandoff | src/jvc/continuity/state.py:270-323 | Commits exactly when initialized, at the named revision if one is named, with the observed handoff on disk and the recorded one recorded, if any is; otherwise changes nothing and says why in order; the observed handoff at the next revision |
| Continuity.ContinuityManager.RecordDecision | src/jvc/continuity/state.py:338-382 | Commits exactly for a plain name without a decision file at the named revision, and otherwise changes nothing and says why in order; the decision file first, then the state, which keeps the recorded handoff |
| Continuity.ContinuityManager.Verify | src/jvc/continuity/state.py:384-409 | Passes exactly when state and handoff are there and the handoff is not other than the recorded one |
| Guard.ReachedIsSealed | src/jvc/policy/guard.py:153-225 | Every manifest reached from a capture keeps the captured preimages, and in applied or verified has an intent bound to every entry |
| Guard.ReceiptIsHonest | src/jvc/policy/guard.py:297-391 | A certified manifest means every captured path now hashes to its bound intent and differs from its captured content, and the changed paths are all of them |
| Guard.VerifiesIff | src/jvc/policy/guard.py:227-269 | For any captured manifest, whatever was done to it since, the preimage check passes if and only if each captured path is present exactly if it was and holds the captured bytes |
| Guard.CertifiesIff | src/jvc/policy/guard.py:297-391 | An applied one can be certified if and only if each captured path exists, hashes to its bound intent and differs from the captured bytes |
| Guard.ChangedInBytes | src/jvc/policy/guard.py:314-367 | The paths reported as changed are exactly the captured ones that exist with other bytes than captured |
| Guard.MovesIff | src/jvc/policy/guard.py:197-295 | Which manifests can still move, told from the captured paths and bound intents: proposed ones with usable paths and well-formed intents, approved ones that were bound, all applied ones, no verified one |
| Guard.ApprovedMovesIff | src/jvc/policy/guard.py:271-295 | A manifest approved in any history can move if and only if its intent was bound before |
| Guard.ApprovedUnbound | src/jvc/policy/guard.py:271-295 | For all files and all usable paths there is a history that ends approved, unbound and unmovable |
| Guard.VerifiedUnread | src/jvc/policy/guard.py:271-295 | For all files, usable paths and well-formed intents there is a history that ends verified while the files stay as captured and no entry is fulfilled |
| Guard.PrewriteGuard.ValidateEntries | src/jvc/policy/guard.py:103-151 | Accepts exactly the supported schema with non-empty, duplicate-free, unprotected entries whose preimage fields fit their expected state and whose intents are well formed, in strict mode with all intents bound past the proposed stage |
| Guard.PrewriteGuard.VerifyPreimages | src/jvc/policy/guard.py:227-269 | Of a valid manifest it passes exactly when every entry's file is absent as recorded or has both the recorded digest and the recorded length |
| Guard.PrewriteGuard.BindIntent | src/jvc/policy/guard.py:197-225 | Binds exactly when valid, proposed and given one hash for every captured path, and changes nothing otherwise |
| Guard.PrewriteGuard.Transition | src/jvc/policy/guard.py:271-295 | Advances exactly from proposed to approved, from approved to applied if bound or not strict, and from applied to verified |
| Guard.PrewriteGuard.IssueReceipt | src/jvc/policy/guard.py:297-391 | Passes exactly when an applied valid manifest has every file present, with the bound digest, and in strict mode with another digest or length than captured; records all paths as changed, and reports the changed ones on failure |
| Truncation.CappedRead | src/jvc/execution/executor.py:420-438 | Of valid UTF-8 output the longest whole-character prefix that fits, truncated exactly when something was dropped; of any output the longest fitting part of what its first limit-plus-one bytes decode to; negative limits refused |
| Truncation.FitBytes | src/jvc/execution/executor.py:404-418 | The longest prefix of the decoded text that fits, for arbitrary bytes |
| Truncation.DecodeCut | src/jvc/execution/executor.py:413-417 | Decoding any byte prefix of an encoding gives its whole characters and one replacement for a cut one |
| Truncation.DecodePrefix | src/jvc/execution/executor.py:404-418 | Whole characters come through decoding whatever bytes follow them |
| Truncation.OneSound | src/jvc/execution/executor.py:404-418 | Of any bytes, whatever decoding shows stands encoded in the bytes it took or is the replacement character |
| Truncation.CutThenFit | src/jvc/execution/executor.py:429-434 | Fitting one byte more than the limit never keeps the replacement of a cut character and loses no character that fits |
| Truncation.Pump | src/jvc/execution/executor.py:243-259 | However the stream is chunked, the first limit-plus-one bytes are kept |
| Routing.AliasIsSublist | src/jvc/routing.py:27-35 | For all strings the delimiter search finds an alias exactly when its token list is non-empty and a contiguous sublist of the query's tokens |
| Routing.NormalizeIdempotent | src/jvc/routing.py:22-24 | Normalizing twice is normalizing once |
| Routing.TokensAreRuns | src/jvc/routing.py:22-24 | The tokens of any text are its longest runs of letters a to z and digits, in order |
| Routing.HitIff | src/jvc/routing.py:81-97 | A route matches exactly when the tokens of its name or of an alias stand in the query next to one another |
| Routing.HitsConcat | src/jvc/routing.py:81-97 | Matched routes stand in the order they are registered in |
| Routing.ResolveQuery | src/jvc/routing.py:70-127 | The matched routes are exactly those hit, in order, each with exactly its names and aliases whose tokens the query has next to one another; unknown for none, routed for one, and for more multi-route or ambiguous by the markers of several projects in the query |
| Routing.OrderIrrelevant | src/jvc/routing.py:81-127 | The matched routes and the status do not depend on the order of the routes |

## Left out

- Real file system, fsync, temporary files, retries and lock files: an atomic replacement or durable write is one step, the lock is a mutex per place that a crash frees, and a lock timeout is giving up.
- SHA-256 and HMAC: SHA-256 is an injective constructor, the keyed hash an arbitrary function (`Tokens`) or a constructor over the key (`Capability`).
- JSON: receipts, manifests, claims and state files are values; a receipt file that fails validation is either repairable but for its state or beyond repair. Hand edits of receipts that stay valid are not modelled.
- Names and times: receipt names are fresh, the clock field is arbitrary. The name of a receipt is kept as its kind and its rank.
- Two projects sharing one path, path resolution and symbolic links: a place is one project and one canonical path; `Capability` and `GovernedWrites` take the resolved path of a write as given.
- Damaged receipts: they block every write and rollback, and recovery turns those that lack only a state into blocking receipts; the crash theorems of a place are for stores with no damaged receipt of that place.
- Liveness: nothing says that a waiting process gets the lock.
- Protocol.BeginWrite: may deny a write at the gate whenever it likes, because the gate also refuses on receipts that were blocking when the settling loop visited them; the exact gate is in `Executor.GovernedExecutor.Gate` and `Executor.GovernedExecutor.FsWrite`.
- RecoveryStores.RecoveryStore.Rollback: as a method it runs without outside edits between its steps, so the digest comparison after the restoration appears in the protocol only; the digest of the file is taken once before the settling loop in the code and afresh at each step in the protocol.
- RecoveryStores.RecoveryStore.Prune: times are whole seconds, and the files whose unlink fails are given. `PruningRuns.Prunable` is enough for one unlink beside running operations, not necessary: an unlink of the top of a settled stack can also be harmless (`Unlinking.UnlinkSettledIff`). A prune that takes the source of a rollback in progress is outside the run theorems.
- Executor.GovernedExecutor.FsWrite: is the critical section; authorization and path permission precede it in `GovernedWrites.Gateway.FsWrite`. Unreadable targets (an I/O error while hashing) are not modelled.
- Capability.ConfirmationStore.ValidateAndConsume: one process at a time with the fault as a parameter; the interleavings are in the machine. Proposals with missing fields and the upper-casing of preimage digests are left out.
- Tokens.TokenRoundTrip: the decoder is strict, where Python's skips foreign characters; no signed body contains any.
- Continuity.ContinuityManager.Init: project name, privacy and persistence fields and timestamps are left out.
- Guard.PrewriteGuard.Capture: directories, path canonicalisation and the guard's own output-path screening are left out, as is the comparison of the manifest bytes before a rewrite.
- Routing.ResolveQuery: payloads and contracts of the matched routes are left out; case mapping is any character-wise mapping that fixes lower-case letters, digits and the space, and for the markers of several projects both the characters words are made of and the ignoring of case are parameters.
- Truncation.Pump: the reader threads, timeouts and stop flag are left out.
- Git operations, configuration, contracts, command line, demo and release scripts.
