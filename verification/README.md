# A nightly Dropbox to Proton Drive mirror: the model and what it keeps

The program lists Dropbox, compares the listing with the mirror it has on record, plans
batches of changed files, and carries each batch through download, hashing, upload,
confirmation and checkpoint; then it trashes what left Dropbox and, once a week, walks the whole
Proton tree to correct the record. Its only memory is one SQLite database that it ships to an
object store after every batch. This project models that program and proves what holds of every
run of it, killed anywhere.

`dafny verify dfyconfig.toml` checks everything. The core is in four parts.

**The folder walk** (`WalkTables`, `WalkLog`, `Walk`, `WalkPaths`). `Walk.Walk` is the concurrent
walk: one queue per worker, listings in flight, stealing, requeueing, three rescues, a deadline.
Which listings are done, in what order and with what outcome is left open at every turn. Each
change to the tables is a transaction in a ghost log; `WalkLog` holds any such log against the
remote tree, so interrupted, resumed and killed walks are all just logs. `WalkPaths` says which
node a CLI path of a complete snapshot names.

**The run protocol** (`Tables`, `BatchItems`, `Protocol`, `RunLoop`, `SecondPhase`, `Evidence`,
`Twins`, `Durable`, `Convergence`, `Chaining`). `Protocol.Next` is a state machine over the local
tables, the staging tree, the bucket and the place the process has reached; a crash is a step like
any other, and a restart begins from what the bucket holds. `Past` is what an observer would have
written down (uploads, comparisons, puts); no step's guard reads it. The theorems are about
`Replay(FirstWorld(), trace)` for every trace.

**The process** (`Statefile`, `Pipeline`, `Packing`, `Strays`, `SlashNames`, `ProtonTrash`,
`Reconcile`, `Trash`, `Night`). The phases as methods that change the tables row by row, with loops,
budgets and calls that may raise, also after they took effect. `Process.Valid` says that the tables
are those of a world the protocol can reach by the steps the process has taken, so every theorem
about the protocol is one about this code: `Night.Run` is a whole run from the listed rows on,
recasing, walk and reconcile included, and its contract states that a run done with nothing
remaining passed through a world of its own trace that had converged. `Example` walks one small run
through the protocol step by step.

**The loops the rest leans on** (`Slashes`, `CliPath`, `Hashing`, `Staging`, `DropboxListing`,
`DisplayPaths`): joining, cutting and comparing paths as text, path escaping and splitting, the
streaming block hash, pruning, cursor paging, display-path rebuilding.

Where the code and its prose differ, or a promise holds only on a condition, the model follows the
code and the condition is proved:

- `pack` calls itself first-fit (src/migrator/phases/p30_plan.py:12) and is next-fit. It is still
  minimal among partitions that keep the order (`Packing.NoneHasFewer`).
- `_Walk.run` can return False with nothing pending, when the deadline passes right after the last
  listing. Only the True direction is a theorem (`Walk.Walk.Run`).
- `child_cli_path` strips trailing slashes from the parent, so its round trip with
  `split_parent_path` holds exactly for parents that end in neither a slash nor an odd run of
  backslashes (`CliPath.RoundTrip`, both directions).
- The trash gate reads one number, `remaining_batches`. It is sound because a run has one batches
  phase (Taskfile.yml:60-75), which the protocol builds in. With a second one it is right if and
  only if no batch of the run was FAILED when that phase selected
  (`SecondPhase.GateIsRightIffNoneHadFailed`, from any tables), and a replayed run opens it wrongly
  (`SecondPhase.SecondPhaseOpensTheGate`).
- A crash between the very first history copy and its canonical copy leaves a bucket that refuses
  to start until it is rolled back; no other crash in the batches loop does
  (`Durable.CrashInTheFirstShipment`, both directions).
- Two files of one batch may have the same display path up to normalisation; they share one staged
  file. Each recorded row was compared with exactly its size and hash, but it was in the tree that
  was sent if and only if no file staged at its path was removed as a mismatch
  (`Evidence.EveryMirrorRowWasUploaded`). `Twins.RecordedUnsent` replays a run in which a summary
  that miscounts puts a file on record that was never sent; an honest count excludes it
  (`Evidence.EvidenceMeansUploaded`).
- A trash call is given CLI paths, and a path does not always name one node: a name may be the UID
  of a sibling that has a twin, and a folder name that ends in a slash loses it before its child's
  name is added. `WalkPaths.OnePathOneReading` says exactly which nodes share a path, and
  `WalkPaths.PathsClashExactly` exactly when some do where no folder's path ends in a slash.
- Reconcile compares paths as text, with leading slashes stripped, and a Proton name may hold
  slashes. So the promise that nothing on record is trashed is kept for every node whose path's
  first name is not slashes alone, and broken for every other: a top-level folder called "/" has a
  key nothing in Dropbox can have, is always trashed, and what it holds is compared as if it lay at
  the top (`Reconcile.RecordIsTrashedIffSlashNamed`, both directions; `SlashNames.ATakenFile`, a
  small tree).

## Model

| member | source | states |
|---|---|---|
| Slashes.ChildKey | src/migrator/filesystem.py:12-14 | A child's comparison key is its folder's, a slash and its normalised name, unless the folder's path is slashes alone |
| Slashes.CutOfKey | src/migrator/filesystem.py:12-14 | What can be cut at a slash from a display path's key is the key of a folder above it |
| Slashes.FoldJoins | src/migrator/filesystem.py:12-14 | Normalising what lies between slashes commutes with joining at a slash, whatever slashes the two sides hold |
| Slashes.CutIsLongest | src/migrator/phases/p60_reconcile.py:106-110 | Cutting a text at its last slash leaves the longest of what can be cut from it |
| CliPath.TwoPassesAreOne | src/migrator/providers/proton_cli.py:32-33 | The two replace passes, backslashes first, escape each character exactly once |
| CliPath.SplitParentPath | src/migrator/providers/proton_cli.py:36-53 | Splits at the last slash with an even run of backslashes before it; raises exactly when there is none or a side would be empty |
| CliPath.RoundTrip | src/migrator/providers/proton_cli.py:36-58 | Splitting a child's path gives back parent and escaped name if and only if the parent is nonempty and ends in neither a slash nor an odd backslash run |
| CliPath.EscapeIsPrefixFree | src/migrator/providers/proton_cli.py:32-33 | No escaped name followed by a slash or the end continues another: where one component ends is decided by the text |
| CliPath.ParentPathsAreInjective | src/migrator/phases/batch.py:58-66 | Different component sequences have different parent paths under one destination |
| WalkLog.TrailIsUnique | src/migrator/providers/proton_cli.py:512-585 | In a tree no two ways down lead to one uid |
| WalkLog.CommitIsSound | src/migrator/providers/proton_cli.py:497-588 | Committing a listing keeps every row true of the remote tree and every completed folder's children on record |
| WalkLog.ReplayIsSound | src/migrator/providers/proton_cli.py:431-599 | Every history of transactions, interrupted anywhere, leaves only true rows |
| WalkLog.SoundAndDoneIsExact | src/migrator/providers/proton_cli.py:473-488 | With nothing pending, the rows are exactly the nodes reachable from the root, with their true parents, segments and paths |
| WalkLog.CommittedExactlyOnce | src/migrator/providers/proton_cli.py:564-588 | A complete folder's listing was committed once in the whole history |
| WalkLog.CompleteSnapshotIsTheTree | src/migrator/providers/proton_cli.py:400-418 | A COMPLETE snapshot is the remote tree, and each reachable folder's listing was committed exactly once |
| WalkLog.KilledAnywhere | src/migrator/providers/proton_cli.py:497-588 | A kill leaves a prefix of the history, which is itself a history |
| Walk.DispatchKeepsOwned | src/migrator/providers/proton_cli.py:784-813 | Moving a folder from a queue to a free worker, stolen or not, keeps each pending folder in exactly one place |
| Walk.RequeueKeepsOwned | src/migrator/providers/proton_cli.py:828-847 | Putting a failed or drained folder back keeps it too |
| Walk.CommitKeepsOwned | src/migrator/providers/proton_cli.py:837-853 | A committed listing leaves its folder in no queue and its new subfolders in exactly one |
| Walk.RecordChildren | src/migrator/providers/proton_cli.py:507-585 | The loop over a listing's children writes what the listing says, or raises and writes nothing |
| Walk.Database.OpenSnapshot | src/migrator/providers/proton_cli.py:431-449 | If the latest walk of this purpose and destination is RUNNING it is that one, and nothing is logged; if it is COMPLETE and may be reused there is none to do; otherwise one new snapshot is opened |
| Walk.Database.CloseSnapshot | src/migrator/providers/proton_cli.py:473-488 | A walk is marked complete only with nothing pending |
| Walk.Database.CommitListing | src/migrator/providers/proton_cli.py:497-588 | Children, queue rows and the folder's completion are one transaction |
| Walk.Walk.LoadPending | src/migrator/providers/proton_cli.py:770-782 | Puts every PENDING folder in exactly one queue, whatever the checksum |
| Walk.Walk.Dispatch | src/migrator/providers/proton_cli.py:784-813 | Afterwards no worker is idle while a folder waits in any queue, and no worker has two; with nothing in flight nothing is pending; keeps ownership |
| Walk.Walk.Assign | src/migrator/providers/proton_cli.py:788-813 | An idle worker gets the head of its own queue, or of a longest one if its own is empty; every listing already in flight stays |
| Walk.Walk.Collect | src/migrator/providers/proton_cli.py:815-853 | Lands finished listings in any order, each out of flight afterwards; keeps ownership; if all were listed, strictly fewer folders are not complete, and never more |
| Walk.Walk.Rescue | src/migrator/providers/proton_cli.py:855-869 | Spends one of three rescues or raises |
| Walk.Walk.Run | src/migrator/providers/proton_cli.py:735-765 | Ends on every schedule (rescues left, then folders not complete, decrease); True means nothing is pending; without a deadline it never stops short |
| Walk.Inventory | src/migrator/providers/proton_cli.py:400-418 | However it ends, every complete snapshot on record is exactly the remote tree; without a deadline a walk that returns is complete |
| WalkPaths.PathIsLed | src/migrator/providers/proton_cli.py:56-58 | A node's CLI path is the destination and the components its names read as, each escaped and led by its separator; a name that is empty or ends in a slash runs into the next |
| WalkPaths.OnePathOneReading | src/migrator/providers/proton_cli.py:56-58 | Two nodes of a complete snapshot have one CLI path if and only if their names read as the same components |
| WalkPaths.SlashEndedFolderClashes | src/migrator/providers/proton_cli.py:56-58 | A child of a folder whose name ends in a slash has the path of that folder's sibling whose name is the two in one |
| WalkPaths.PathsClashExactly | src/migrator/providers/proton_cli.py:497-541 | Where no folder's path ends in a slash, two nodes share a path if and only if a name unique in its folder is the UID of a sibling whose name is not |
| WalkPaths.PathsNameTheirNodes | src/migrator/providers/proton_cli.py:497-541 | Without such a name, a call given some nodes' paths names those nodes alone |
| Tables.MarkUnhashed | src/migrator/phases/p10_inventory.py:78-86 | Afterwards a present file always has a size and a content hash, and no mirrorable file is lost |
| BatchItems.CountingLeavesNothingOut | src/migrator/phases/batch.py:241-269 | If an honest count adds up, every verified file and staged folder was attempted |
| BatchItems.ConfirmedWereUploaded | src/migrator/phases/batch.py:241-300 | A CONFIRMED file was transferred or skipped, also with basename twins and with a failed folder of the same name |
| Protocol.HistoryKeyIsOne | src/migrator/statefile.py:12-13 | A history key has the history prefix and is never the canonical key |
| Convergence.DeltaIsTheDifference | src/migrator/phases/p20_delta.py:69-108 | The two delta tables name exactly the files on which mirror and listing disagree, and carrying them out makes the mirror the listing |
| Protocol.NewBatches | src/migrator/phases/p30_plan.py:75-93 | A plan's batches are numbered from 1, PLANNED, and hold the parts' changed rows |
| RunLoop.MergeMakesProgress | src/migrator/phases/batch.py:327-373 | A batch that ends CHECKPOINTED recorded a row, or all its files had vanished |
| RunLoop.ConfirmSettles | src/migrator/phases/batch.py:271-300 | Confirming leaves no item VERIFIED |
| RunLoop.StepKeepsAccount | src/migrator/phases/p40_batches.py:62-130 | Every step keeps the loop's account: which batches were planned, which are done, which are untouched, which statuses an item may have |
| RunLoop.EveryRunIsAccounted | src/migrator/phases/p40_batches.py:62-130 | That account holds in every reachable world |
| RunLoop.TrashWaitsForEveryBatch | src/migrator/phases/p50_trash.py:29-36 | No step trashes a file or folder unless every batch the run planned is CHECKPOINTED |
| SecondPhase.GateIsRightIffNoneHadFailed | src/migrator/phases/p40_batches.py:30-33 | From any tables: if a batches phase ends with nothing remaining, every batch of the run is CHECKPOINTED if and only if none was FAILED when the phase selected |
| SecondPhase.PhaseFollows | src/migrator/phases/p40_batches.py:62-130 | From selection to end, every selected batch the loop is past is CHECKPOINTED, every other batch stands as it was, and remaining counts the selected ones not past |
| SecondPhase.SecondPhaseOpensTheGate | src/migrator/phases/p40_batches.py:30-33 | A replayed run with a second batches phase: the gate opens over a FAILED batch and a trash call may follow |
| Evidence.EveryRunIsProven | src/migrator/phases/batch.py:163-222 | In every reachable world each item's status is backed by what was staged, compared and sent |
| Evidence.EveryMirrorRowWasUploaded | src/migrator/phases/batch.py:163-381 | Every mirror row, local or in any object of the bucket: verify hashed what was staged for it as exactly this file; an upload summary that accounts for every verified file and staged folder confirmed its batch without naming it; and the tree sent held it, with this size and hash, if and only if no file staged at its path had been removed as a mismatch |
| Evidence.EvidenceMeansUploaded | src/migrator/phases/batch.py:241-300 | If that summary was honest, the row's file was in the tree sent, and was transferred or skipped under its path |
| Twins.RecordedUnsent | src/migrator/phases/batch.py:163-300 | A replayed run: of two files with one display path the second is removed as a mismatch, a summary miscounts, and the first goes on record though no upload held its path |
| Durable.EveryRunIsShipped | src/migrator/phases/batch.py:374-382 | In every reachable world the canonical object lags the local mirror by at most the batch in progress |
| Durable.CrashCostsOneBatch | src/migrator/phases/p40_batches.py:62-127 | A crash anywhere in the batches loop: the mirror a restore reads agrees with the local one on every file outside the batch in progress, and whatever run starts next starts from it |
| Durable.EveryRunIsRestorable | src/migrator/statefile.py:16-38 | In every reachable world up to the end of the loop, a bucket with history but no canonical object means a first shipment between its two copies |
| Durable.ChainedRunStartsWhereTheLastEnded | src/migrator/phases/p40_batches.py:128-130 | A chained run starts from the mirror the run before it left |
| Durable.CanonicalWasHistory | src/migrator/statefile.py:57-61 | Every canonical object was put as a history object first |
| Durable.CrashInTheFirstShipment | src/migrator/statefile.py:16-38 | In the batches loop the next fetch is refused if and only if the crash came between a first history copy and its canonical copy; rolling back to that copy restores the state whole |
| Durable.HistoryIsNeverFresh | src/migrator/statefile.py:21-28 | Once a history object exists, no later fetch answers "fresh" |
| Convergence.EveryRunIsTracked | src/migrator/phases/p20_delta.py:69-108 | In every reachable world the mirror is this run's start plus what was checkpointed minus what was dropped |
| Convergence.RunConverges | src/migrator/phases/p50_trash.py:102-107 | After batches and trash, each file's row is the listing's if checkpointed, absent if trashed or not found, unchanged otherwise |
| Convergence.CleanRunMirrorsTheListing | src/migrator/phases/p20_delta.py:69-108 | After batches that all landed and the trash step: mirror and listing agree on path, size and hash if and only if no changed file was oversized, vanished, mismatched or failed and no deleted one was in a folder that could not be listed; the next delta is then empty |
| Convergence.NothingOverIsNothingWrong | src/migrator/phases/batch.py:330-373 | Every changed file was checkpointed and every deleted one trashed or not found, if and only if no item and no deletion has a status that says otherwise |
| Chaining.ChainShrinksTheDelta | src/migrator/phases/p40_batches.py:121-130 | A run that asks for a chained run, with nothing vanished, leaves strictly fewer changed files |
| Chaining.ChainingEnds | src/migrator/phases/p40_batches.py:128-130 | Over one trace: successive runs that each ask for the next, over an unchanging listing, with crashes only between them, are no more than the files of the first delta |
| Chaining.NextStartsWhereItEnded | src/migrator/phases/p40_batches.py:128-130 | In one trace, the mirror a run starts from is the mirror the chaining run before it left, whatever process died in between |
| Statefile.Fetch | src/migrator/statefile.py:16-38 | Restores what the canonical object holds; a missing object beside history always raises; no scratch file is left |
| Statefile.Push | src/migrator/statefile.py:41-64 | History first, canonical second, from that history object; a call that raises may have taken effect, so a push that raised has put nothing, the history object, or both; whichever way it ends no scratch file is left |
| Statefile.Rollback | src/migrator/statefile.py:67-68 | Makes the chosen history object what the next fetch restores; a call that raises may have done so or nothing; no other object is touched |
| Statefile.PushThenFetch | src/migrator/statefile.py:16-64 | What was pushed is restored, and losing the canonical object afterwards is noticed |
| Pipeline.MarkBySummary | src/migrator/phases/batch.py:262-300 | Marking the named failures first and the rest after confirms exactly the items the summary clears |
| Pipeline.MergeTouchesConfirmed | src/migrator/phases/batch.py:330-373 | The merge writes the confirmed files' rows from their items, keeps a row's recorded UID, and leaves every other row as it was |
| Pipeline.MergeSettlesItsBatch | src/migrator/phases/batch.py:330-373 | No item stays CONFIRMED, the CHECKPOINTED ones grow by exactly those, no other batch changes, and the batch is FAILED exactly if something failed confirmation and nothing was recorded |
| Pipeline.Process.Fetch | src/migrator/phases/batch.py:102-160 | Clears staging and downloads every planned item; succeeds exactly if none is left planned; a batch already past fetch is refused with staging untouched |
| Pipeline.Process.FetchItem | src/migrator/phases/batch.py:128-152 | One download: FETCHED and staged under its display path, VANISHED with staging as it was, or, if it broke, nothing changed; no other item moves |
| Pipeline.Process.VerifyRow | src/migrator/phases/batch.py:169-194 | VERIFIED if and only if the staged size and content hash are the listing's, with staging as it was and the digests kept; otherwise HASH_MISMATCH and the file is out of staging; an unreadable file changes nothing |
| Pipeline.Process.Verify | src/migrator/phases/batch.py:163-200 | Goes on exactly if every fetched file was compared and not all of them differ |
| Pipeline.Process.Upload | src/migrator/phases/batch.py:208-222 | Sends the staging tree as it stands; with nothing verified it sends nothing and goes on |
| Pipeline.Process.Confirm | src/migrator/phases/batch.py:241-300 | Settles the batch by the summary, each named failure and then the rest; raises exactly when there are verified files and no summary |
| Pipeline.Process.MergeConfirmed | src/migrator/phases/batch.py:330-373 | The mirror gains exactly the confirmed rows |
| Pipeline.Process.ShipState | src/migrator/phases/batch.py:379-382 | Staging is cleared only once a fetch would restore these tables; a push or a clearing that raises leaves staging as it was, whatever reached the bucket |
| Pipeline.Process.Checkpoint | src/migrator/phases/batch.py:327-382 | Merge, then ship; if shipping raises the merge stays local, with the state put nowhere, in history, or in both places |
| Pipeline.Process.SelectPlanned | src/migrator/phases/p40_batches.py:30-33 | This run's PLANNED batches, all of them, each once, by number |
| Pipeline.Process.Fail | src/migrator/phases/p40_batches.py:97-106 | After a raised step the batch row says FAILED and no other batch changes; the run's remaining count is set, and it does not chain |
| Pipeline.Process.RunBatch | src/migrator/phases/p40_batches.py:78-96 | The five steps in order; it ends landed or at the step that raised |
| Pipeline.Process.RunInBudget | src/migrator/phases/p40_batches.py:56-127 | The first batch always starts; each later one began with room in the budget for the longest before it; the loop stops short only when the next would not fit |
| Pipeline.Process.RunBatches | src/migrator/phases/p40_batches.py:28-154 | Changes nothing if the destination cannot be checked; otherwise sets remaining, chains only when it returns with batches left, and with none left has checkpointed every one |
| Hashing.BlocksAreUnique | src/migrator/hashing.py:8-8 | There is one way to cut data into consecutive full blocks and a short last one |
| Hashing.FeedBlocks | src/migrator/hashing.py:32-42 | However a chunk falls, the outer digest holds the digests of the full blocks and the inner one the bytes after them |
| Hashing.HashStream | src/migrator/hashing.py:20-52 | For every byte sequence and every way the reads split it: size, both whole-file digests, and the published content hash |
| Staging.PruneEmptyDirs | src/migrator/phases/batch.py:80-86 | Bottom-up pruning leaves exactly the directories that hold a staged file |
| Packing.Pack | src/migrator/phases/p30_plan.py:11-34 | Batches concatenate back to the rows; each is within both caps or one file over the byte cap; none could take the next row |
| Packing.NoneHasFewer | src/migrator/phases/p30_plan.py:11-34 | No partition of the rows in order that obeys the same rules has fewer batches |
| Packing.NeighboursBreakACap | src/migrator/phases/p30_plan.py:25-29 | Any two neighbouring batches together break a cap |
| Packing.Plan | src/migrator/phases/p30_plan.py:46-67 | Refuses exactly a tree over the ceiling and a disk that cannot hold a batch; otherwise every batch, staged whole, leaves the headroom free |
| Packing.PlanCanBeSaved | src/migrator/phases/p30_plan.py:68-93 | A plan's parts are disjoint, nonempty, and together all the rows it kept |
| Strays.CompleteWalkIsTreeShaped | src/migrator/providers/proton_cli.py:512-560 | In a complete snapshot each node extends its parent's segments by one |
| Strays.Climb | src/migrator/phases/p60_reconcile.py:105-110 | Cutting at the last slash and stopping at the first ancestor already there adds everything that can be cut from the key |
| Strays.Occupied | src/migrator/phases/p60_reconcile.py:104-110 | Despite the early break: exactly what can be cut from known keys |
| Strays.StrayFolders | src/migrator/phases/p60_reconcile.py:90-126 | Returns the folders neither Dropbox nor the record needs whose parent is not one of them |
| Strays.StraysAreClosed | src/migrator/phases/p60_reconcile.py:116-121 | A stray's subfolders are strays, if the stray's path is not slashes alone |
| Strays.EachStrayIsCoveredOnce | src/migrator/phases/p60_reconcile.py:122-126 | One returned folder covers each stray whose path does not begin with a name of slashes alone; no two are nested |
| Strays.TrashedSubtreesHoldNothingKnown | src/migrator/phases/p60_reconcile.py:93-96 | No returned subtree holds a file on record or a folder Dropbox lists, but for paths that begin with a name of slashes alone |
| SlashNames.KnownIsTakenIffSlashNamed | src/migrator/phases/p60_reconcile.py:90-126 | A listed folder or a file on record lies in a returned subtree if and only if its path begins with a name of slashes alone |
| SlashNames.ClosedExactly | src/migrator/phases/p60_reconcile.py:116-121 | Of a folder whose key Dropbox can have: whatever is listed and on record, it is a stray if its parent is, if and only if the parent's path is not slashes alone |
| SlashNames.CoveredOnceExactly | src/migrator/phases/p60_reconcile.py:122-126 | A stray is covered once if and only if its path does not begin with a name of slashes alone, or every folder above it is a stray |
| SlashNames.SlashFolderIsTop | src/migrator/phases/p60_reconcile.py:116-126 | A top-level folder whose name is slashes alone is always returned |
| SlashNames.ATakenFile | src/migrator/phases/p60_reconcile.py:90-126 | A folder called "/" over c/f: with /c listed and /c/f mirrored, the file is on record and lies in a returned subtree |
| Reconcile.Judge | src/migrator/phases/p60_reconcile.py:57-70 | A row survives if and only if its node has its size and no differing SHA-1 |
| Reconcile.CorrectMirror | src/migrator/phases/p60_reconcile.py:43-87 | By text keys: the survivors, each with its node's UID; dropped plus matched is the old count; refreshed counts the UIDs that changed; known still counts the dropped rows |
| Reconcile.DroppedComesBack | src/migrator/phases/p20_delta.py:74-84 | A dropped file is in the next changed set if and only if Dropbox still lists it, and no other file joins it |
| Reconcile.NothingOnRecordIsTrashed | src/migrator/phases/p60_reconcile.py:206-221 | After a complete walk no listed folder and no file with the key of a mirrored or listed one is trashed, by itself or inside a folder, unless its path begins with a name of slashes alone |
| Reconcile.RecordIsTrashedIffSlashNamed | src/migrator/phases/p60_reconcile.py:90-221 | Where mirror and listing hold paths Dropbox can have, that is exact: what is on record is trashed if and only if its path begins with such a name |
| Reconcile.StrayFilesAreUnknown | src/migrator/phases/p60_reconcile.py:206-213 | A stray file's key is neither mirrored nor listed, and every such key of a file node has a stray |
| Reconcile.TrashStrays | src/migrator/phases/p60_reconcile.py:214-221 | Files before folders; the stray files are exactly those whose text key is unknown, the folders exactly the topmost strays, and the trash calls get exactly their paths |
| Reconcile.Run | src/migrator/phases/p60_reconcile.py:129-249 | Gated on the run's flag and remaining count; a partial walk changes neither mirror nor Proton; a complete one corrects the mirror, trashes exactly the strays, and ships |
| Trash.Pick | src/migrator/phases/p50_trash.py:70-84 | The recorded node if it is there, never a twin; otherwise the first file of the name; none only if there is none |
| Trash.LookUp | src/migrator/phases/p50_trash.py:72-91 | Nothing only if no file has the name; otherwise the picked node with its CLI path, by UID exactly when its name is not unique in the folder |
| Trash.LookUpAll | src/migrator/phases/p50_trash.py:70-91 | A file its folder's listing lacks is recorded at once; for every other the node picked from that listing is a target of the trash call, under its own path |
| Trash.TrashGroup | src/migrator/phases/p50_trash.py:61-101 | A folder whose listing was refused has its rows recorded as such; TRASHED with a UID is recorded only after a call returned that had the node of that UID, as picked from a listing taken, for a target; a raised call records none |
| Trash.TrashFound | src/migrator/phases/p50_trash.py:70-101 | Of a listed folder, what was not found and what was trashed are both recorded, each as the listing and the call bear out, and nothing else |
| Trash.Sweep | src/migrator/phases/p50_trash.py:44-119 | When it returns every deleted file has an outcome, what was trashed or not found has left the mirror, and the state is shipped; if it raises, the mirror is as it was or rid of exactly these |
| Trash.Run | src/migrator/phases/p50_trash.py:21-119 | Waits for the batches; the mirror loses exactly what this run recorded as trashed or not found; each record is borne out by a listing this run asked for and a call that returned; when it returns the run's deletions are carried out |
| DropboxListing.UpsertsSpan | src/migrator/providers/dropbox_api.py:402-457 | After n pages the keys are those some page names, each with its first page, its last page and the last row given |
| DropboxListing.Inventory.Commit | src/migrator/providers/dropbox_api.py:356-391 | Entries, page row and cursor are one transaction |
| DropboxListing.Inventory.Run | src/migrator/providers/dropbox_api.py:312-400 | From any interruption it goes on with the page after the last one committed, and ends |
| DropboxListing.CompleteInventoryIsTheListing | src/migrator/providers/dropbox_api.py:320-330 | A complete inventory has exactly pages 1 to n, and for every key its last row and the first and last page naming it |
| DisplayPaths.Rebuild | src/migrator/phases/p10_inventory.py:51-62 | The growing prefix yields each ancestor's own name, the row's spelling where no folder row is, the lower-case path if depths differ |
| DisplayPaths.Recase | src/migrator/phases/p10_inventory.py:38-69 | Rebuilds every row against the names as they stood and counts exactly the rows it changes |
| DisplayPaths.RecasingIsIdempotent | src/migrator/phases/p10_inventory.py:38-69 | A second recasing changes nothing |
| DisplayPaths.OneSpelling | src/migrator/phases/p10_inventory.py:38-42 | Entries below one folder spell it alike, and as its own row does |
| DisplayPaths.FolderKeysAreClosed | src/migrator/phases/p60_reconcile.py:97-103 | The folder keys of a recased listing with every folder in it are closed under cutting at slashes, which stray selection relies on |
| DisplayPaths.Resolver.Resolve | src/migrator/phases/p20_delta.py:24-34 | The memo changes no answer: the result is plain recursion's, whatever was resolved before |
| DisplayPaths.Resolver.DisplayPaths | src/migrator/phases/p20_delta.py:36-46 | Every listed file's path, whatever order the rows come in |
| DisplayPaths.ResolvingARecasedPath | src/migrator/phases/p20_delta.py:12-34 | On a recased listing with every folder in it, resolving gives the recased path back |
| DisplayPaths.SplitOfText | src/migrator/phases/p10_inventory.py:52-53 | Stripping and splitting a path's text gives its components back |
| DisplayPaths.PartitionOfText | src/migrator/phases/p20_delta.py:27-28 | Cutting the text at its last slash takes off the last component |
| Example.OneFileIsMirrored | src/migrator/phases/p40_batches.py:28-154 | The steps can be taken to the end: from an empty bucket one file goes on record, the bucket would restore that record, and the trash gate opens |
| Night.Start | src/migrator/state.py:647-679 | One step, from what the bucket holds: the run is open from the mirror a restore reads, and has recorded no deletion, dropped nothing and corrected nothing; a lost state starts none |
| Night.Inventory | src/migrator/phases/p10_inventory.py:70-92 | The listing saved has the unverifiable files demoted and every path recased; nothing else changes |
| Night.Delta | src/migrator/phases/p20_delta.py:49-108 | A listing under the floor raises and changes nothing; otherwise the tables name exactly what changed and what is gone, each changed file under its resolved path, and an empty listing never becomes a trash list |
| Night.SaveBatches | src/migrator/phases/p30_plan.py:68-94 | Executed batches stay, every other one is replaced by the plan, and no other table changes |
| Night.Plan | src/migrator/phases/p30_plan.py:37-94 | The saved batches hold exactly the changed files within the file cap; none could take its neighbour's first file; each fits the disk |
| Night.TrashNight | src/migrator/phases/p50_trash.py:21-119 | The trash phase of a process: when it returns having done its work every file is as listed, gone or as before, and the mirror is the listing exactly when nothing went wrong |
| Night.WellListedIsClosed | src/migrator/phases/p60_reconcile.py:97-103 | The run's recased listing has closed folder keys, so the choice of strays may rely on it |
| Night.ReconcileNight | src/migrator/phases/p60_reconcile.py:129-249 | Walk and reconcile together: a closed gate walks nothing; when done, the mirror was compared with the remote tree itself, exactly the chosen calls were made, and over a recased listing nothing on record was trashed but for slash-named paths |
| Night.CallsNameTheChosen | src/migrator/phases/p60_reconcile.py:214-221 | The paths the trash calls get name the chosen nodes alone, unless a name is the UID of a twin or a folder's path ends in a slash |
| Night.Close | src/migrator/phases/p50_trash.py:29-36 | Trash, then reconcile: nothing is asked for before every batch landed; where the trash phase left off is a world of this run's own trace, converged if nothing remained, and only reconcile's correction came after |
| Night.Run | Taskfile.yml:60-75 | Over a whole run, whatever raises: no call asks for anything to be trashed unless every planned batch reached CHECKPOINTED; a run done with nothing remaining passed, on its own trace and from the mirror it started with, through a converged world, after which only reconcile's correction changed the mirror |

## Left out

- Subprocess, HTTP, object-store client, age, lzma and tar calls: each is an open choice of outcome (returns, raises, not found).
- SQLite itself: tables are maps keyed by their primary keys, and each transaction is one step. The batch row and the run row written after a raised step are two transactions in the code and one step here; a kill between them loses both, with the local database.
- Timestamps, attempt counters, durations in reports, event and command rows, artifacts: nothing branches on them.
- SHA-1, SHA-256, NFC and case folding: functions about which nothing is assumed; a running digest is known by the bytes fed to it. Normalising acts on what lies between slashes, since no composition crosses one.
- Dropbox paths are component sequences in `Tables` and `DisplayPaths`; `Slashes.Text` gives their text, which keys the tables and is compared. Proton's names may hold slashes: `Slashes` and `SlashNames` say how they are compared, `WalkPaths` what their CLI paths read as.
- Proton's content: an upload is a past event. After a crash between upload and checkpoint Proton may hold newer files than the record, which the next upload skips or replaces.
- Session files, their seal, restore and write-back: only the outcome (authentication failed, one rescue spent) matters to the walk.
- Retry and backoff pacing, sleeps, and clocks beyond a value read for the deadline and the budget.
- Report, figures, logging, redaction, configuration parsing, command-line dispatch.
- Pruning of old inventories and old snapshots: rows nothing reads again.
- `hash_file`'s comparison of file status before and after, `walk_tree` and the local directory scan: file-system reads.
- The listed rows reach the run as a parameter of `Night.Inventory`; `DropboxListing` says what paging yields. Recasing, path resolution and the walk are part of the run (`Night.Inventory`, `Night.Delta`, `Night.ReconcileNight`).
- Labels of history objects are arbitrary text, which includes two pushes under one label.
- The order in which changed rows are packed is the database's; the packing theorems hold for every order.
- DropboxListing.Inventory.Run: assumes the chain of cursors is deterministic and no cursor is empty, because an empty one would send the loop back to the first page.
- RunLoop.TrashWaitsForEveryBatch: one batches phase to a run, as the pipeline has it; `SecondPhase` has the other case.
- WalkPaths.OnePathOneReading: Proton's UIDs hold no slash and no backslash, since they go into a path unescaped.
- Pipeline.Process.Confirm: the code commits each named failure on its own, inside the transaction that settles the rest; here the batch is settled in one step, and a kill between them loses both with the local database.
- Pipeline.Process.ShipState: a clearing of staging that raises is taken to have removed nothing; the tree is not looked at again before the next fetch clears it.
- SlashNames.KnownIsTakenIffSlashNamed: normalising neither empties a name nor puts a slash into one.
- Chaining.ChainingEnds: chained runs over an unchanging listing in which nothing vanishes.
