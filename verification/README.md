# A verified model of the FAT driver, its path commands and its line editor

The system is a small 32-bit operating system with a cut-down FAT32 driver, a shell with path commands, and
a keyboard line editor that echoes to a text screen. This project models, in Dafny,

- the **FAT driver** (`src/fat32.c`): the byte layout of map and tables, the in-memory disk
  (`src/external-inserter.c`), formatting, mounting, `write`, `read`, `read_directory`, `delete`, `rename_dir`
  and `move_dir`, and the host variant of `read` (`src/fat32-no-cmos.c`);
- the **path layer**: `strtok`, `strparse`, `separate_filename`, `read_path`, `cd`, `rm` and `whereis`;
- the **line editor**: the screen with its in-place scrolling, and the keyboard interrupt.

## How it is built

Code that changes state is modelled as classes and methods with loops: `BlockDevice`, `Driver`, `Cwd`,
`Tokenizer`, `Screen`, `KeyboardDriver`, and the methods that use them. Each is proved equal to a function of
the old state, and what the source promises is proved about those functions.

The disk is a sequence of 2048-byte clusters. It *decodes* to a `Vol`: the map and the directory tables as the
bytes say, together with what explains them (the depth of each directory, the chain of clusters of each live
slot, the owner of each cluster in use). `Rep(d, v)` says that disk `d` decodes to `v`. `Tree(v)` says that the map
beyond the reserved cells holds disjoint, increasing, properly ended chains, one for each live slot and the root,
that directories form a tree in which header and entry agree, and that names are distinct. `Inv(v)` adds that the
"not empty" flags are exact and dead slots zero, which is so until a folder is moved. `NoLeak(v)` says that no other
cell is in use. Every call is described by its ordered list of cluster writes (`StepLog`), so a crash is a prefix of
that list.

Besides the functions that methods are proved against, what the code does is stated without them, on fields, cells,
bytes and characters: `Layout` for the offsets, `Effects` for the calls of the driver, `Strings.SeparatesExact`,
`Paths.ComponentStep` and `Whereis.WhereisText` for texts, `Walking.PickedText` and `RmOutcome` for `rm`, `Keys` for the
keyboard. Inductive proofs are written out: automatic induction is off for every lemma to which it would apply.

A disk *shows* a tree if what is on it decodes to one. It shows at most one (`Shown.OneTree`), so what a call makes
of a disk is a statement about the bytes alone. The driver works on every disk that shows a tree
(`FatDriver.Driver.Intact`); where the flags have to be right as well, the lemma or method says so (`Inv`).

| file | content |
|---|---|
| `Layout` | bytes of entries, tables and the map |
| `Volume`, `Pruning` | the tree, its invariant, and what each kind of change does to it; taking a slot away with what hangs from it |
| `Shown` | which trees a disk shows |
| `Allocation`, `Disks`, `Operations` | first fit; the device and its cluster writes; requests, contents, write logs |
| `Writing`, `Deleting`, `Reading` | what each call does to names and contents, and its return code |
| `Undo`, `Crash`, `Runs`, `Simulation`, `Space` | undo, crashes, whole runs, refinement of an abstract file system, conservation |
| `FatDriver` | the driver itself |
| `Renaming`, `Moving`, `MoveOutcomes`, `Relinking` | `rename_dir` and `move_dir` |
| `Effects` | what every call of the driver returns and leaves on disk, field by field and cell by cell |
| `Histories`, `Refinement` | runs with renames and moves in them, and what they are for the abstract file system |
| `Beginnings`, `Examples`, `CrashExamples`, `PathExamples`, `SearchExample`, `RmExamples`, `StrayExample` | short runs from a format, and what fails or is printed after them |
| `HostReading` | the bounded read of the host tool |
| `Strings`, `Calls`, `Paths` | tokens and names; the driver as seen by callers; `read_path` and `cd` |
| `Subtrees`, `Whereis` | subtrees; `whereis` |
| `Clearing`, `Walking`, `Sweeping`, `Removal`, `RmOutcome` | clearing sets of slots; paths in what is left; what goes when, as the paths of `rm` say; `rm`; what it does about one entry |
| `Spelling`, `Turns`, `Bounds`, `SweepResults`, `Strays`, `PathSweeps`, `Readiness` | the texts that `rm` makes of names; what they lead to; which slots go; when `rm` may be called |
| `Framebuffer`, `Keyboard`, `Echo`, `Keys` | the screen, the interrupt, and their agreement; what each key does |

## What was found

Some properties one would expect do not hold of the code as it is. For each the exact condition is proved, and for
those of the driver, of the path commands and of `rm` there is a run of at most five calls from a format after which
the property fails.

- A file of more than 256 clusters is not stored: the fragment counter is eight bits wide, and from the 257th
  cluster on the beginning of the buffer is written again (`Operations.StoredIsBuffer`, `Examples.WrapFails`).
- Making a folder stores the parent's table before the map. A crash between the two leaves an entry whose first
  cluster is free, and no tree whatsoever is shown by that disk; every other crash point is harmless
  (`Crash.FolderWriteCrash`, `CrashExamples.FolderHalfMade`).
- Deleting a folder that has just been made restores the volume if and only if no file without an extension has
  the same name in an earlier slot, and no move has left a wrong flag or a dead slot that is not zero
  (`Undo.FolderUndo`, `Examples.UndoFails`). Files need the second half only (`Undo.FileUndo`,
  `Examples.FileUndoFails`).
- `rename_dir` replaces the *first* slot with the old name, live or not, file or folder, and does not look for the
  new name. The disk shows a tree afterwards if and only if that slot is the folder itself and no other folder there
  has the new name (`Renaming.RenameExact`, `Relinking.RenameDirExact`, `Examples.RenameFails`,
  `Examples.RenameTakenFails`).
- `move_dir` clears the first slot with the name, and looks neither for another folder of that name in the target
  nor whether the target is inside the folder. The disk shows a tree afterwards if and only if the slot is the folder
  itself, and the target is inside the folder or has no other folder of the name (`MoveOutcomes.MoveExact`,
  `Relinking.MoveDirExact`, `Examples.MoveFails`, `Examples.MoveTakenFails`). With a target inside it returns 0, and
  the only tree on the disk is the old one without the folder and everything below it; their clusters leak
  (`Examples.MoveInsideLoses`).
- A crash between the two writes of a rename leaves a tree only if the name is the old one (`Renaming.RenameCrash`,
  `CrashExamples.RenameHalfWay`). After the first of the four writes of a move the folder is gone with all below it;
  after the second there is a tree only if the folder stays in its directory or is moved into itself; the last write,
  of the map, changes nothing (`MoveOutcomes.MoveCrash`, `CrashExamples.MoveHalfWay`).
- `move_dir` updates no flag. The old parent's flag stays exact if and only if the folder stays in its directory or
  another entry does, the new parent's if and only if it had an entry before (`Moving.MovedFlags`). A folder with a
  clear flag and a live slot is then let through by `delete`: the only tree on the disk lacks everything below the
  folder, and clusters leak, if and only if the folder had a live slot (`Deleting.DeleteOrphansExact`). One move into
  an empty folder is enough (`Examples.FlagsFail`). Over runs with moves nothing else is lost or leaked
  (`Histories.HistoryKeeps`).
- `rm -r` makes a path of every entry's name and resolves it anew, in a tree from which part is gone. A path then
  leads where it led if it enters no folder that has been removed, and fails otherwise (`Walking.WalkExact`,
  `PathSweeps.SafeIsEntered`). The text made of an entry stands for the entry if and only if there is no dot in its name
  or extension and, for a file, the name has fewer than eight characters or no extension
  (`Spelling.SpellableExact`). Say an entry is *clear* if everything at or below it is a folder, or a file of at most
  16 KiB or in front of a folder of its name, and no empty folder whose flag says that it is not, and if the text of
  everything below it stands for it.
  - On a path that goes through nothing it removes, an entry that does not lie below a folder with a dot in its name
    goes if and only if it is clear, its text stands for it and, if it is a file behind a folder of its name, that
    folder is clear (`Strays.SweptExact`, `RmExamples.BigFileStays`, `RmExamples.DottedFolderStays`). What lies below
    a folder with a dot stays, unless a text is the name of one folder and stands for another, as `b.` is and stands
    for `b`: then part of what is in `b.` may go (`StrayExample.StrayGoes`).
  - `rm` chooses the folder if a file has the same name, but what is then deleted is the first of the two: if
    that is the file, it goes, and the chosen folder stays (`SweepResults.SweptBounds`, `PathExamples.SharedNameGoes`).
  - On any path that starts outside the folder everything goes if and only if the folder is clear, no file of its name
    is in front of it, and every folder below it that the path enters is the last entry of its directory
    (`PathSweeps.SweptWhole`, `RmExamples.RoundStays`). The working directory may well be inside
    (`RmExamples.RemovedFromInside`).
  - The paths of the entries of a folder that was given with a dot, as in `name.`, lead to the folder whose name that
    is, dot and all. If there is none, the folder keeps all it holds (`Strays.DottedStays`, `RmExamples.DotStays`).
  - If the path fails at a file on the way, the entry with an empty name and an empty extension is removed from where
    it failed, if there is one (`PathExamples.NamelessGoes`).
- `whereis` skips entries with an empty name and with them all that is below. A file that is asked for is found, once,
  if and only if neither it nor a folder above it has an empty name (`Whereis.WhereisExact`). `.txt` separates into
  such a name (`PathExamples.EmptyNameHidden`).
- A `cd` that fails may have moved: it stops where the longest good prefix of the path leads
  (`Paths.FailsAt`, `PathExamples.CdMoves`). A path that only goes down leaves the stack alone if and only if its first
  folder is what cannot be opened (`Paths.FailsInPlace`). A final `..` at the root succeeds, any other `..` at the root
  fails (`Paths.CdIsWalk`).
- The 256th character of a line wraps the buffer index, and the line is lost (`Echo.WrapLosesLine`). So is a line
  if one more scan code arrives between enter and the copy to the caller (`Echo.LateKeyLosesLine`).

Code and comments disagree in places; the model follows the code. `read` returns -1, not 2, for a request of
less than one cluster; `write` never returns -1 (`Effects.RefusedEffect`, `Effects.WriteCodes`); `read_directory` returns 1 only for a file with the same name
*and* extension, `read` for a folder of the same name whatever the extension asked for.

## Model

| member | source | states |
|---|---|---|
| Layout.EntryRoundTrip | src/lib-header/fat32.h:76-93 | every directory entry survives being laid out in 32 bytes and read back |
| Layout.EntryBytesRoundTrip | src/lib-header/fat32.h:76-93 | every 32 bytes are the layout of the entry they decode to: nothing on disk is ambiguous or lost |
| Layout.EntryOffsets | src/lib-header/fat32.h:76-93 | where the bytes of each field stand in the 32 of an entry, numbers low byte first, the two halves of the cluster number apart; byte 13 makes an entry live and byte 11 a directory |
| Layout.TableRoundTrip | src/lib-header/fat32.h:96-99 | a table of 64 entries survives a cluster |
| Layout.TableBytesRoundTrip | src/lib-header/fat32.h:96-99 | a cluster read as a table and stored again is the same cluster |
| Layout.TableOffsets | src/lib-header/fat32.h:96-99 | entry i of a directory is the 32 bytes from 32 * i on, read and stored |
| Layout.FatRoundTrip | src/lib-header/fat32.h:51-54 | the map of 512 cells survives a cluster |
| Layout.FatBytesRoundTrip | src/lib-header/fat32.h:51-54 | a cluster read as the map and stored again is the same cluster |
| Layout.MapOffsets | src/lib-header/fat32.h:51-54 | cell k of the map is the four bytes from 4 * k on, low byte first |
| Volume.FileAddedKeepsInv | src/fat32.c:312-356 | adding a file on free, properly linked clusters keeps the tree and, if it held, the whole invariant, and leaks nothing |
| Volume.FolderAddedKeepsInv | src/fat32.c:285-310 | adding a folder with a fresh table keeps the tree, the distinct names and, if they were, the exact flags |
| Volume.TouchedKeepsInv | src/fat32.c:416-417 | stamping an entry keeps the tree and the invariant |
| Pruning.ClearFlagIsLeaf | src/fat32.c:478-487 | as long as flags are exact, a folder whose flag is clear has no entry |
| Pruning.PrunedKeepsTree | src/fat32.c:490-546 | taking any slot away leaves a tree of exactly what did not hang from it |
| Pruning.PrunedLeaks | src/fat32.c:490-546 | taking a folder away leaks clusters if and only if it has a live slot |
| Pruning.RemovedKeepsInv | src/fat32.c:490-546 | removing a file or an empty folder keeps tree and invariant and leaks nothing |
| Shown.FoldersStay | src/fat32.c:285-310 | every tree that a disk shows has all directories of the old tree, but for those below folders whose entries have been touched |
| Shown.OneTree | src/fat32.c:87-103 | a disk shows at most one tree: map, tables, depths, chains and owners follow from the bytes |
| Allocation.FindEmptyCluster | src/fat32.c:185-195 | the loop returns the first free cell from 3 on, or 512 |
| Allocation.SmallestIsLeast | src/fat32.c:333-354 | the clusters of a file are the least free ones, in increasing order |
| Allocation.FirstFitIsSmallest | src/fat32.c:220-220 | searching and linking one cluster at a time takes exactly the k smallest free clusters in order |
| Allocation.LinkedIsChain | src/fat32.c:335-354 | the cells written for a file form one chain with an end mark, and no other cell changes |
| Disks.BlockDevice.ReadBlocks | src/external-inserter.c:18-22 | the bytes of consecutive blocks |
| Disks.BlockDevice.WriteBlocks | src/external-inserter.c:24-28 | exactly the bytes of consecutive blocks are replaced |
| Disks.BlockDevice.ReadCluster | src/external-inserter.c:35-38 | reading a cluster gives the cluster of that number |
| Disks.BlockDevice.WriteCluster | src/external-inserter.c:30-33 | writing a cluster replaces that cluster and no other, and logs it |
| Disks.BlockDevice.WriteBoot | src/fat32.c:70-70 | the signature replaces one block; the rest of cluster 0 stays |
| Disks.ImageOffsets | src/external-inserter.c:13-28 | cluster c is the 2048 bytes of the image from 2048 * c on |
| Operations.StoredIsBuffer | src/fat32.c:315-348 | what is stored is the buffer, for all buffers of a size, if and only if the file has at most 256 clusters |
| Operations.WrapCounterexample | src/fat32.c:315-348 | beyond 256 clusters some buffer is stored wrongly |
| Operations.CutAt | src/fat32.c:346-348 | the j-th cluster written is the chunk at the eight-bit counter's position |
| Operations.ChainLogEffect | src/fat32.c:335-354 | the interleaved writes of map and data leave the map linked and the data laid out |
| Operations.ChainLogPrefix | src/fat32.c:335-354 | after any prefix of those writes only cells and clusters of the new chain have changed |
| Writing.FileWrittenAdds | src/fat32.c:312-356 | a file write takes a dead slot and free clusters only |
| Writing.FileWrittenRep | src/fat32.c:312-356 | the disk after the writes decodes to the tree with the file |
| Writing.FileWriteBinds | src/fat32.c:312-356 | after a file write the name reads the stored bytes, and every other name reads what it did |
| Writing.FileWriteKeepsFolders | src/fat32.c:312-356 | a file write changes no folder name |
| Writing.FolderMadeRep | src/fat32.c:285-310 | the disk after the three writes decodes to the tree with the folder |
| Writing.FolderWriteBinds | src/fat32.c:285-310 | a new folder binds one folder name, is empty, and changes no file |
| Deleting.TargetIsLive | src/fat32.c:468-500 | the slot a delete finds is live and starts the chain that is freed |
| Deleting.DeletedRep | src/fat32.c:490-546 | the disk after the two writes decodes to the tree without the entry |
| Deleting.DeleteUnbinds | src/fat32.c:444-563 | a delete unbinds exactly the name it finds and what hangs from it, which is nothing as long as flags are exact; every other file and folder is untouched |
| Deleting.DeleteOrphansExact | src/fat32.c:478-546 | after a delete that returns 0 the disk shows exactly one tree, the old one without the slot and all below it; clusters leak if and only if something was below it |
| Undo.FileUndo | src/fat32.c:312-356 | on any tree, file write then delete gives back map, tables, names and ownership, but for one slot and one flag; it is the identity if and only if the slot was zero and the flag exact, as the invariant says |
| Undo.FolderUndo | src/fat32.c:285-310 | folder write then delete is the identity if and only if, besides, no earlier slot holds a file of that name without extension |
| Crash.FileWriteCrash | src/fat32.c:335-356 | a file write cut after any proper prefix of its writes shows the old tree with all contents; at worst cells leak |
| Crash.DeleteCrash | src/fat32.c:545-546 | a delete cut between its writes shows the new tree with all surviving contents; at worst cells leak |
| Crash.FolderWriteCrash | src/fat32.c:294-310 | after m of its 3 writes a folder write shows a tree if and only if m is not 2, and then the invariant holds if it did before |
| Crash.DanglingEntry | src/fat32.c:309-310 | an entry whose first cell is free is part of no tree |
| Reading.VisitKeepsNames | src/fat32.c:369-442 | reading moves a time stamp and changes no name and no content |
| Reading.ReadCodeExact | src/fat32.c:369-442 | the code of a read in terms of the names bound in the directory, whatever the order of the slots |
| Reading.ReadFolderCodeExact | src/fat32.c:115-183 | the code of a folder read in terms of the names bound in the directory |
| Reading.DeleteCodeExact | src/fat32.c:444-563 | delete fails with 1 exactly when nothing has the name and, if the flag of what it finds is right, with 2 exactly when that is a folder with an entry; under the invariant the flag is right |
| Runs.FormatRep | src/fat32.c:68-85 | formatting any disk leaves a signed, empty tree |
| Runs.EmptyVolOk | src/fat32.c:68-85 | the empty tree satisfies the invariant without leaks |
| Runs.StepDiskIsApply | src/fat32.c:203-563 | the disk after a call is the disk before with the call's cluster writes applied in order |
| Runs.StepKeeps | src/fat32.c:203-563 | every allowed call on any tree keeps decoding and tree, and the invariant if it holds; it leaks nothing and keeps every file it does not concern, unless it deletes a folder with a wrong flag, which the invariant excludes |
| Runs.StepKeepsBoot | src/fat32.c:39-103 | no call writes cluster 0, so a remount never formats |
| Runs.RunKeeps | src/fat32.c:203-563 | no run leaks a cluster or writes the boot cluster |
| Runs.ReachableStates | src/fat32.c:39-103 | every state of every run from a format decodes to a tree with the invariant, without leaks, still signed |
| Runs.BoundStays | src/fat32.c:233-241 | a bound name cannot be overwritten by any call: only a delete of it, or of a folder above it whose flag is wrong, changes it |
| Runs.FileSurvives | src/fat32.c:203-563 | a file keeps its bytes over every run that does not delete its name |
| Runs.WrittenReadsBack | src/fat32.c:203-563 | in every run that starts with a successful file write and does not delete the name, the file holds what was stored: the caller's bytes, up to 256 clusters |
| Simulation.StepSimulates | src/fat32.c:203-563 | each call, refused ones included, is a step, with the same code, of an abstract map from names to contents and folders, on any tree in which the flag of a folder to be deleted is right |
| Simulation.RunSimulates | src/fat32.c:203-563 | every run of calls is a run of the abstract file system with the same codes, refused calls included |
| Simulation.WriteCodeExact | src/fat32.c:233-241 | the code of a write in terms of the abstract map |
| Simulation.RefusedIsNoDir | src/fat32.c:214-217 | a call is refused exactly when the abstract maps have no directory of its number |
| Simulation.LiveIsNamed | src/fat32.c:478-487 | a directory has a live slot exactly when something is bound in it |
| Space.ReachedSpace | src/fat32.c:333-354 | in every state of every run from a format the map on disk has exactly the free cells that directories and file sizes leave |
| Space.Conservation | src/fat32.c:333-354 | cells in use are 3 + (directories - 1) + the sum of ceil(size / 2048), in every tree without leaks |
| FatDriver.Driver.Initialize | src/fat32.c:87-103 | an unsigned image is formatted, a signed one is loaded unchanged; map and root are cached |
| FatDriver.Driver.IsEmptyStorage | src/fat32.c:39-44 | true exactly when the boot block is not the signature |
| FatDriver.Driver.CreateFat32 | src/fat32.c:68-85 | the disk becomes the formatted disk |
| FatDriver.Driver.FindSlot | src/fat32.c:223-257 | the scan reports a taken name, or the first dead slot, as the searches over the table do |
| FatDriver.Driver.MakeFolder | src/fat32.c:285-311 | writes new table, parent and map in that order |
| FatDriver.Driver.WriteChain | src/fat32.c:333-354 | the loop performs the interleaved writes on the k smallest free clusters |
| FatDriver.Driver.WriteFile | src/fat32.c:312-357 | writes the chain, then the parent's table |
| FatDriver.Driver.Write | src/fat32.c:203-367 | code, cluster writes, disk, cached map and tree are those of the write step |
| FatDriver.Driver.FreeChain | src/fat32.c:490-500 | the walk frees exactly the cells of the chain |
| FatDriver.Driver.ClearSlot | src/fat32.c:502-538 | the slot is zeroed and the flag cleared when nothing is left |
| FatDriver.Driver.Delete | src/fat32.c:444-563 | code, cluster writes, disk, cached map and tree are those of the delete step |
| FatDriver.Driver.ReadChain | src/fat32.c:423-429 | the walk gathers the clusters of the chain, in order, and stops at its end |
| FatDriver.Driver.Read | src/fat32.c:369-442 | code and new state are those of the read step; on 0 the buffer starts with the bytes of the file |
| FatDriver.Driver.ReadDirectory | src/fat32.c:115-183 | code and new state are those of the step; on 0 the buffer is the folder's table and the result its cluster |
| Renaming.RenamedKeepsInv | src/fat32.c:579-647 | replacing the folder's entry and its header's name keeps the tree and, if it held, the invariant |
| Renaming.RenamedNames | src/fat32.c:579-647 | exactly one folder is relabelled, and with the data clusters as they were every file keeps its content |
| Renaming.RenamedRep | src/fat32.c:579-647 | the two table writes leave the disk of the renamed tree |
| Renaming.RenameExact | src/fat32.c:579-647 | for every folder and every new name: the two writes leave a disk that shows a tree if and only if the first slot with the old name is the folder and no other folder has the new name; the tree is the renamed one |
| Renaming.WrongSlot | src/fat32.c:579-647 | if another slot is replaced, the disk shows no tree after either write |
| Renaming.NameTaken | src/fat32.c:579-647 | if another folder has the new name, the disk shows no tree |
| Renaming.RenameCrash | src/fat32.c:579-647 | cut between its writes a rename leaves a tree if and only if the slot is the folder and the name is the old one |
| Moving.MovedKeepsTree | src/fat32.c:649-760 | a move to outside the folder keeps tree, depths, chains and distinct names |
| Moving.MovedNames | src/fat32.c:649-760 | exactly one folder is rebound, and with the data clusters as they were every file keeps its content |
| Moving.MovedFlags | src/fat32.c:649-760 | the old parent's flag stays exact if and only if the folder stays there or another entry does, the new parent's if and only if it had an entry; every other flag stays exact |
| Moving.MovedRep | src/fat32.c:649-760 | the four writes leave the disk of the moved tree |
| MoveOutcomes.MoveExact | src/fat32.c:649-760 | for every folder and every target with room: the four writes leave a disk that shows a tree if and only if the first slot with the name is the folder, and the target is inside it or has no other folder of the name; it is the moved tree, or the old one without the folder and all below it |
| MoveOutcomes.MoveCrash | src/fat32.c:649-760 | after each of the writes of a move: when the disk shows a tree, and which |
| MoveOutcomes.WrongSlotCleared | src/fat32.c:649-760 | if another slot is cleared, the disk shows no tree from the second write on |
| MoveOutcomes.NameTakenThere | src/fat32.c:649-760 | if the target has another folder of the name, the disk shows no tree |
| MoveOutcomes.DetachedNames | src/fat32.c:649-760 | after a move into itself the folder and everything below it is bound no more, and all else is bound to what it was |
| Relinking.RenameDir | src/fat32.c:579-647 | on any tree, whatever has the old name first, the disk is that of the read with the two table writes; if it is the folder and the new name is free, the tree is the renamed one, one folder is relabelled and every file keeps its content; on failure only time stamps change |
| Relinking.MoveDir | src/fat32.c:649-760 | the same with the four writes of a move: one folder is rebound and every file keeps its content, or, with a target inside it, the folder is lost with all below it; on failure only time stamps change |
| Relinking.RenameNames | src/fat32.c:579-647 | on the disk after the writes of a rename every file has its content, and one folder name has changed |
| Relinking.MoveNames | src/fat32.c:649-760 | on the disk after the writes of a move every file has its content, and one folder has changed its directory |
| Relinking.RenameDirExact | src/fat32.c:579-647 | from the state before the call: the disk after it shows a tree if and only if the folder has the first slot with its name and no other folder has the new one |
| Relinking.MoveDirExact | src/fat32.c:649-760 | the same for a move: the folder has the first slot, and the target is inside it or has no other folder of the name |
| Effects.RefusedEffect | src/fat32.c:361-364 | if slot 0 of the parent does not have the directory attribute, a write returns 2 and every other call -1, and nothing is written |
| Effects.WriteCodes | src/fat32.c:230-241 | a write returns 1 if a live slot has the name (of a directory for a new folder, with the extension for a new file) and 0 otherwise; on 1 nothing is written |
| Effects.ReadCodes | src/fat32.c:375-441 | the code of a read from the fields of the slots: -1 for less than 2048 bytes, else 0 or 2 by the size of the file, else 1 for a folder of the name, else 3 |
| Effects.ReadFolderCodes | src/fat32.c:121-182 | the code of a folder read from the fields of the slots |
| Effects.DeleteCodes | src/fat32.c:468-487 | the code of a delete from the first live slot with name and extension, and for a folder from the mark in its own header |
| Effects.AllowedExact | src/fat32.c:203-367 | what a call asks for: a parent that shows that it is no directory, or a directory of the tree and, where something is created, a dead slot, enough free cells and a buffer as long as what is read of it |
| Effects.ReadAsks | src/fat32.c:399-428 | a read asks for a buffer that takes the whole clusters of the file it will find, and for nothing if it finds none |
| Effects.MoveAsks | src/fat32.c:712-748 | a move asks for a target that is the folder's own directory or has a dead slot |
| Effects.FileWriteEffect | src/fat32.c:312-356 | after a file write: the slot taken and each of its fields, the clusters taken and their cells and bytes, the mark of the parent, and all else as before; and the order of the cluster writes |
| Effects.FolderWriteEffect | src/fat32.c:285-310 | after a folder write: the slot and each of its fields, the header of the new table and its zeros, the cell, the mark of the parent, and all else as before; and the order of the writes |
| Effects.DeleteEffect | src/fat32.c:490-546 | after a delete: the slot zero, the mark cleared if no live slot is left, the cells of the chain free, and all else as before; and the order of the writes |
| Effects.ReadEffect | src/fat32.c:411-417 | after a read: the date of the last access in the slot found, and all else as before |
| Effects.RenameEffect | src/fat32.c:594-644 | after a rename: each field of the slot that carried the old name first, the name in the header of the folder, and all else as before; and the order of the writes |
| Effects.MoveEffect | src/fat32.c:664-757 | after a move: the mark of the slot that carried the name first, each field of the slot taken in the target, the parent in the header of the folder, and all else as before; and the order of the writes |
| Effects.FormatEffect | src/fat32.c:46-85 | after a format: the text and the zeros of the boot block, every cell of the map, each field of the header of the root, and all else as before |
| Effects.SignatureText | src/fat32.c:39-44 | a disk counts as formatted if and only if its first 512 bytes are that text followed by zeros |
| Histories.CallKeeps | src/fat32.c:203-760 | every call, renames and moves included, on any tree: decoding and tree are kept, all but moves keep the invariant, and only a delete of a folder with a wrong flag and a move into itself lose or leak anything |
| Histories.HistoryKeeps | src/fat32.c:203-760 | every run, whatever it renames and moves, ends in a tree; a file keeps its content until its name is deleted or a folder above it is lost; a run that loses nothing leaks nothing |
| Histories.HistoryKeepsInv | src/fat32.c:203-647 | a run without moves keeps the whole invariant and loses nothing but what it deletes by name |
| Histories.MovePermitted | src/fat32.c:649-760 | whether a move may be part of such a run, and whether it loses its folder, can be seen before the call |
| Refinement.CallSimulates | src/fat32.c:203-760 | a rename or move is the rebinding of one abstract folder, with the code of its read; every other call is its abstract step |
| Refinement.HistorySimulates | src/fat32.c:203-760 | every run with renames and moves is a run of the abstract file system with the same codes, as long as no delete meets a wrong flag and no folder is moved into itself |
| Refinement.CandidWithoutMoves | src/fat32.c:203-647 | which is so in every run without moves from a state with the invariant |
| Examples.WrapFails | src/fat32.c:315-348 | a file of 257 clusters, written to a fresh disk with code 0, does not hold the caller's bytes |
| Examples.UndoFails | src/fat32.c:285-310 | after one file write, making and deleting a folder of that name does not restore the volume |
| Examples.RenameFails | src/fat32.c:579-647 | after a file and a folder of one name, renaming the folder leaves a disk that shows no tree |
| Examples.RenameTakenFails | src/fat32.c:579-647 | after three folder writes, renaming one folder to the name of its neighbour leaves a disk that shows no tree |
| Examples.MoveFails | src/fat32.c:649-760 | after a file and a folder of one name, moving the folder leaves a disk that shows no tree |
| Examples.MoveTakenFails | src/fat32.c:649-760 | after three folder writes, moving a folder to where another has its name leaves a disk that shows no tree |
| Examples.MoveInsideLoses | src/fat32.c:649-760 | after three folder writes, moving a folder into its own child leaves exactly one tree on the disk, which has neither, and leaks their clusters |
| Examples.FlagsFail | src/fat32.c:649-760 | after three folder writes, moving the only folder of one into the other makes both flags wrong; a delete then returns 0, and the only tree on the disk has lost what was moved, but not its clusters |
| Examples.FileUndoFails | src/fat32.c:649-760 | after that move, writing a file where the folder was and deleting it does not restore the volume |
| CrashExamples.FolderHalfMade | src/fat32.c:294-310 | on a fresh disk, making a folder shows no tree after its second write, and one after the first and third |
| CrashExamples.RenameHalfWay | src/fat32.c:579-647 | after one folder write, renaming the folder shows no tree between its writes |
| CrashExamples.MoveHalfWay | src/fat32.c:649-760 | after three folder writes, moving one folder into another shows a tree without it after the first write, and none after the second |
| HostReading.ReadChain | src/fat32-no-cmos.c:413-419 | the bounded loop copies exactly min(chain length, size / 2048) clusters |
| HostReading.Read | src/fat32-no-cmos.c:360-432 | same code and new state as the kernel; the buffer gets that prefix of the file and keeps its other bytes |
| Strings.Tokenizer.Next | src/string.c:14-56 | one call cuts off the text up to the next delimiter and remembers the rest; empty tokens are kept |
| Strings.NextText | src/string.c:14-56 | successive calls give the tokens of the text in order, then none |
| Strings.Strparse | src/string.c:107-131 | the rows are the tokens of the text |
| Strings.JoinOfSplit | src/string.c:107-131 | joined with the delimiter the tokens give back the text, and none contains it |
| Strings.SplitOfJoin | src/string.c:107-131 | splitting what was joined gives back the tokens |
| Strings.SplitAppend | src/commands/rm.c:106-109 | a component appended to a path is one more token |
| Strings.SeparateFilename | src/syscall.c:103-134 | name and extension are the parts around the first dot, padded; 3 and no change if they do not fit |
| Strings.SeparatesExact | src/syscall.c:111-133 | for every text: it separates if and only if at most 8 characters come before the first dot and at most 3 between it and the next dot or the end; the fields are those characters followed by zeros |
| Strings.SeparateInverts | src/commands/rm.c:100-105 | the `name.ext` that rm builds separates into the fields of the entry |
| Strings.SeparateFolder | src/commands/rm.c:100-101 | the bare name that rm builds for a folder separates into name and no extension |
| Calls.ReadStep | src/fat32.c:115-183 | reading changes nothing but time stamps: tree, chains and every file stay |
| Calls.DeleteStep | src/fat32.c:444-563 | a delete of a slot from which nothing hangs removes that slot, and at most its file is lost; a refused delete changes nothing |
| Paths.OpenedIsChild | src/syscall.c:66-80 | what a folder read opens is a child of the directory, one level deeper, with the name asked for |
| Paths.DepthBound | src/lib-header/syscall.h:10-15 | no directory is deeper than the stack array is long, by pigeonhole on the clusters |
| Paths.StackTop | src/lib-header/syscall.h:10-15 | a stack that spells a path is at most 510 high, and its top is the root exactly when it has one frame |
| Paths.ResolveKeepsStack | src/syscall.c:32-101 | on success and on every failure the stack spells a path of the tree from the root, if what is left of it after the leading `..` did |
| Paths.ResolveSame | src/syscall.c:32-101 | the resolver does not depend on time stamps |
| Paths.ResolveApart | src/syscall.c:32-101 | resolving a path is walking its directories and then resolving the last component |
| Paths.ComponentStep | src/syscall.c:44-90 | one component of a path that is not the last, on the fields of the entries of the top directory: where it leads, and with which code it fails |
| Paths.WalkPath | src/syscall.c:40-97 | the loop computes the resolver's code, stack and leaf; the frames that leading `..` pop may be those of directories that are gone |
| Paths.ReadPath | src/syscall.c:27-101 | the same from the text of the path, with the twelve bytes of the leaf |
| Paths.Cd | src/commands/cd.c:3-31 | code and stack of `cd` as a function of tree, stack and path; the stack then spells a path |
| Paths.CdIsWalk | src/commands/cd.c:3-31 | `cd p` is resolving `p/`, except that a final `..` at the root is let through |
| Paths.FailsAt | src/syscall.c:44-90 | a failing walk leaves the stack of the longest good prefix |
| Paths.FailsInPlace | src/syscall.c:44-90 | a failing path that only goes down leaves the stack alone if and only if its first folder cannot be opened |
| PathExamples.CdMoves | src/commands/cd.c:3-31 | after one folder write, `cd a/b` fails and has moved to `a` |
| Subtrees.EarlierStep | src/commands/rm.c:98-113 | the entries before slot i + 1 reach those before slot i and, disjointly, the subtree of entry i |
| Subtrees.EarlierEnds | src/commands/rm.c:98-113 | a folder's subtree is its own slot and what its entries reach |
| Whereis.SearchTable | src/commands/whereis.c:35-76 | the loop prints the depth-first answer, without what has an empty name, and restores the stack; only time stamps change, and every file keeps its content |
| Whereis.SearchUtil | src/commands/whereis.c:79-138 | the same for the folder on top of the stack, opened by name; it terminates by the height of the stack |
| Whereis.Whereis | src/commands/whereis.c:3-77 | the output is the query and the answer for the whole tree; map, tables and contents stay, up to time stamps |
| Whereis.ReadRootDirectory | src/fat32.c:565-577 | the buffer is the root's table |
| Whereis.HitsExact | src/commands/whereis.c:79-138 | a search from slot i on finds each file asked for that lies behind those slots exactly once if neither it nor a folder on the way has an empty name, and no other |
| Whereis.WhereisExact | src/commands/whereis.c:35-76 | each live slot is found once if it is a file that is asked for and neither it nor a folder above it has an empty name, and not at all otherwise |
| Whereis.HitPaths | src/commands/whereis.c:56-60 | each hit is printed with the directories that lead to it |
| PathExamples.EmptyNameHidden | src/commands/whereis.c:37-37 | after one file write, `.txt` is there, is asked for by that name, and is not found |
| Whereis.AskingExact | src/commands/whereis.c:5-8 | what a text asks for, by the positions of its dots: every file, or those whose name starts with the part before the first dot and, if there is one, whose extension is the part behind it followed by zeros |
| Whereis.WhereisText | src/commands/whereis.c:35-76 | for every text and every live slot: found once if it is a file with such fields and neither it nor a folder above it has an empty name, and not at all otherwise |
| Whereis.HitsInOrder | src/commands/whereis.c:35-76 | what lies at or behind a slot is printed before what lies at or behind a later slot of the same directory |
| SearchExample.WhereisPrints | src/commands/whereis.c:35-76 | after the files `a.txt` and `a.md`, a folder `b` and a file `b/a.txt`: what `whereis a.txt` and `whereis a` print, character by character |
| Clearing.ClearedRemoved | src/fat32.c:490-546 | a delete clears one more slot: its clusters, its entry and, for a folder, its table; nothing else |
| Clearing.FilesClearedRemoved | src/fat32.c:490-546 | exactly the files of cleared slots are gone |
| Clearing.FindsCleared | src/fat32.c:468-474 | a search finds in what is left what it found before, unless that is gone |
| Walking.WalkExact | src/commands/rm.c:16-16 | in the partly cleared tree the resolver does exactly the walk that does without the folders that are gone; of the stack it starts from, only what leading `..` leave has to be there |
| Walking.PickedExact | src/commands/rm.c:16-65 | what a path names in the partly cleared tree, from the old tree and the set of what is gone, on success and when the walk fails |
| Walking.PickedText | src/commands/rm.c:16-65 | which entry a path names, from the characters of its last component and the fields of the entries: a folder, or, if none has the name, a file of at most 16384 bytes |
| RmOutcome.RmDecides | src/commands/rm.c:67-123 | what rm does about that entry, with what is gone already: a file goes, an empty folder goes or the file of its name in front of it, a folder with something in it stays unless rm is recursive |
| Spelling.SpellableExact | src/commands/rm.c:100-105 | the text built for an entry separates into its fields if and only if its name has no dot and, for a file, neither has its extension, and the name is shorter than its field or the extension empty |
| Spelling.TextsNameSpelled | src/commands/rm.c:100-105 | whatever entry the text of another stands for is itself spelled by its own text |
| Turns.TurnPicks | src/commands/rm.c:106-111 | the path built for an entry picks, if anything, an entry of the directory in which the paths land, spelled as the text separates |
| Turns.NextLanding | src/commands/rm.c:106-111 | the paths of the entries of what was picked land in the folder whose name is the text itself, dots and all |
| SweepResults.SpelledPicks | src/commands/rm.c:106-111 | the path built for an entry that its text stands for picks that entry, or the folder of the file's name, as long as the way to it is there, it is not gone, and it is no file over 16 KiB |
| SweepResults.SweptBounds | src/commands/rm.c:3-133 | nothing outside the chosen subtree goes but the file in front of a folder, which goes in its place; folders go only with all they hold, and nothing comes back |
| Bounds.DroppedIs | src/fat32.c:468-474 | a delete of what was chosen drops the file in front of the folder, if there is one left, or else the folder if it is empty, or the file |
| Strays.SweptExact | src/commands/rm.c:3-133 | on a path that goes through nothing it removes, an entry that is not below a folder whose text does not stand for it goes if and only if all at or below it fits, can be deleted and is spelled, with what shares a name settled by which comes first; what is below such a folder stays if no text is one folder's name and stands for another |
| Strays.SweptAll | src/commands/rm.c:3-133 | the whole subtree goes if and only if all of it fits and can be deleted, all below the folder is spelled by its text, and no file of its name is in front of it |
| Strays.DottedStays | src/commands/rm.c:98-113 | for a folder chosen by a name with a dot only what is in the folder of that very name can go, and nothing if there is none |
| Strays.SweepStops | src/commands/rm.c:98-113 | once a folder that the path goes through is gone, no further entry goes |
| PathSweeps.SweptWhole | src/commands/rm.c:3-133 | on any path that starts outside the folder the whole subtree goes if and only if all of it is clear, no file is in front of the folder, and every folder below it that the path enters is the last entry of its directory |
| PathSweeps.SafeIsEntered | src/commands/rm.c:16-16 | a path is blocked exactly by the removed folders among those it enters |
| Readiness.ReadyIf | src/commands/rm.c:98-111 | every call on the way finds room and the state it asks for, if the names below fit their fields, the flags of the folders hide nothing, the paths fit and the path starts outside |
| RmExamples.BigFileStays | src/commands/rm.c:3-133 | after two calls from a format, rm -r of a folder with a file of nine clusters removes nothing |
| RmExamples.DotStays | src/commands/rm.c:3-133 | after two calls from a format, rm -r of `a` removes the folder with its file, and of `a.` neither |
| RmExamples.DottedFolderStays | src/commands/rm.c:3-133 | after the folders `a` and `a/b.c`, rm -r of `a` removes nothing, though no file is too large and the path enters nothing |
| RmExamples.RoundStays | src/commands/rm.c:3-133 | after three folder writes, rm -r of `a/b/../../a` finds the folder and does not remove all of it, though all of it is clear |
| RmExamples.RemovedFromInside | src/commands/rm.c:3-133 | after two folder writes, rm -r of `../../a` from `a/b` removes both folders |
| StrayExample.StrayGoes | src/commands/rm.c:3-133 | after the folders `a`, `a/b.`, `a/b`, `a/b./c` and `a/b/c`, rm -r of `a` removes a folder below `a/b.` |
| PathExamples.SharedNameGoes | src/commands/rm.c:45-80 | after a file and a folder `a`, rm of `a` picks the folder and removes the file |
| PathExamples.NamelessGoes | src/commands/rm.c:16-80 | after a file without a name and a file `a`, rm of `a/b`, which leads nowhere, removes the file without a name |
| PathExamples.LongExtStays | src/commands/rm.c:26-31 | after a file `a.jpe`, rm of `a.jpe` removes it and rm of `a.jpeg` nothing |
| Removal.DeleteFinds | src/commands/rm.c:70-114 | the delete finds the first entry of the chosen name, and returns 2 if and only if that is a folder in which something is left or whose flag says so |
| Removal.TurnIsCall | src/commands/rm.c:98-111 | at the turn of a live entry the call for its path finds what it asks for, and makes the step of the recursion |
| Removal.Rm | src/commands/rm.c:3-133 | the call clears, in whatever is left of the tree, exactly what the stated recursion over paths reaches |
| Removal.RmEntries | src/commands/rm.c:98-113 | the loop clears exactly what the paths of the folder's entries reach, each resolved at its turn |
| Removal.Remove | src/user-shell.c:110-117 | after rm exactly those slots are gone with their clusters and tables, and every other file holds what it held |
| Framebuffer.Screen.SetCursor | src/framebuffer.c:19-28 | the two registers hold the position that the getter reads |
| Framebuffer.Screen.Write | src/framebuffer.c:30-36 | exactly one cell is replaced |
| Framebuffer.Screen.Clear | src/framebuffer.c:38-48 | every cell is blank |
| Framebuffer.Screen.ScrollDown | src/framebuffer.c:68-78 | in place, every row becomes the one below it and the last is blank |
| Keyboard.KeyboardDriver.ResetBuffer | src/keyboard.c:51-54 | the line is empty and the buffer zero |
| Keyboard.KeyboardDriver.GetBuffer | src/keyboard.c:43-45 | the caller gets the characters before the index, and keeps the rest of its buffer |
| Keyboard.KeyboardDriver.BackPosition | src/keyboard.c:77-92 | where backspace goes, across the start of a row and never over a backspace character |
| Keyboard.KeyboardDriver.Erase | src/keyboard.c:76-95 | cursor, cell and index after backspace |
| Keyboard.KeyboardDriver.NextRow | src/keyboard.c:96-103 | cursor, screen and input state after enter |
| Keyboard.KeyboardDriver.Type | src/keyboard.c:104-118 | cell, buffer, index and cursor after a character, with scrolling at the last cell |
| Keyboard.KeyboardDriver.Isr | src/keyboard.c:56-121 | the interrupt takes the console to the next state |
| Echo.BackTakesLast | src/keyboard.c:76-95 | backspace goes to the last character of the line, across rows, and never into the prompt |
| Echo.EchoStep | src/keyboard.c:56-121 | each key keeps screen, buffer and pushed or popped line in agreement, and the prompt as it was |
| Echo.EchoRun | src/keyboard.c:56-121 | the same for every sequence of scan codes that does not overflow the buffer, across wraps and scrolls |
| Echo.LineDelivered | src/keyboard.c:96-103 | after enter the buffer holds exactly the edited line, input is off and the cursor starts a row |
| Echo.ReadLine | src/interrupt.c:91-102 | the caller gets exactly the edited line, then zeros, if no scan code comes between enter and the copy, and only zeros otherwise |
| Echo.LateKeyLosesLine | src/keyboard.c:57-58 | one scan code with input off clears the line |
| Echo.WrapLosesLine | src/keyboard.c:110-110 | buffer and line agree after a key if and only if the line has fewer than 256 characters |
| Keys.KeyMap | src/keyboard.c:15-34 | which key each of the 256 scan codes is |
| Keys.LineTyped | src/keyboard.c:105-107 | the character a key adds to the line: a letter is small if shift and caps lock are both on or both off and a capital if exactly one is, any other character is its own |
| Keys.CharEffect | src/keyboard.c:104-118 | a character key with input on: that character in the cell at the cursor, white on black, and in the buffer, the cursor one cell on, or a scroll behind the last cell; nothing else changes |
| Keys.EnterEffect | src/keyboard.c:96-103 | enter: the cursor at the start of the next row, or a scroll in the last, and input off; nothing else changes |
| Keys.BackspaceEffect | src/keyboard.c:76-95 | backspace: which cell it goes to, that this is blank, and the index one less; nothing else changes |
| Keys.ModeEffect | src/keyboard.c:57-75 | the other keys change at most shift and caps lock; a code with input off empties the line |
| Keys.CellLayout | src/framebuffer.c:50-53 | the sixteen bits of a cell from character and colours |
| Keys.ScrollLayout | src/framebuffer.c:68-78 | what scrolling leaves in each cell |
| Keys.ModesRun | src/keyboard.c:69-107 | the lines of caps lock and a letter, of caps lock, shift and a letter, and of shift, a letter, shift released and the letter again |
| Keys.InterruptModes | src/keyboard.c:69-107 | the same characters in the buffer of the interrupt |

## Left out

- Directories of more than one cluster, and the branches of `write` and `move_dir` that grow a directory: every
  call asks for a parent of one cluster and, where something is created, a dead slot. The outer loops over the
  clusters of a directory run once and are not modelled.
- A full disk: `write` asks for enough free clusters, because the result 512 of `findEmptyCluster` is not checked.
  The guard of that loop reads the cell before it tests the bound; with a free cell the order does not matter.
- FatDriver.Driver.Read: asks for a buffer that holds the whole clusters of the file, because the kernel's loop
  writes whole clusters whatever the request says. The host's loop is proved for buffers as short as the request.
- File sizes from 2^31 on, which the signed counter of `write` would take for negative: such a file does not fit
  the map.
- The clock, port input and output, the disk controller, interrupts, paging and the process layer: time stamps are
  arbitrary, the disk is an array, scan codes are arguments.
- Relinking.MoveDir: keeps the tree but not the exact flags, as Moving.MovedFlags shows, and leaves behind a dead
  slot of which only the mark has been cleared, so that the invariant, which asks dead slots to be zero, is lost for
  good. It asks that the target is a directory with a dead slot, which in its own directory the folder leaves behind;
  without one the code grows the directory.
- Simulation.RunSimulates: claimed for states with exact flags, that is for runs without moves; with a wrong flag the
  code of a delete does not follow from the names. Refinement.HistorySimulates covers runs with moves up to such a
  delete.
- Refinement.HistorySimulates: a rename or move that `Histories.Permitted` excludes, because the disk then shows no
  tree, is no step; a move of a folder into itself is covered by Histories.HistoryKeeps only.
- Removal.Rm: asks, of every call on the way, that the path has fewer than 50 bytes, at most 12 components and a last
  component of fewer than 12 bytes, that a file with a full extension has attribute zero (the two fields are copied as
  one string), that the directory the path starts in, after leading `..`, is still there, and that no folder that is
  picked has entries and a clear flag. Beyond that the code overruns its buffers or walks through a directory that is
  gone. Its messages are not modelled.
- Strays.SweptExact: asks, as the other results on what goes do, that the fields of names below the folder are texts
  followed by zeros without slashes, and that no entry has both an empty name and an empty extension, which a path that
  fails would name (PathExamples.NamelessGoes).
- Whereis.Whereis: asks for folder names of at most seven characters, which fit a row of the stack, for files with
  attribute zero, and for a query of at most seven characters, since the fields are read as terminated strings. Bytes
  that `strcpy` leaves behind a terminator are not modelled, and of the eight-table buffers only the first table,
  which alone is ever filled.
- Paths.ReadPath: asks for at most 12 components of at most 127 characters, the size of the caller's array.
- A missing extension in `separate_filename`: taken as empty, as its comment says; the code copies to address zero.
- Strings.Strparse: the loop bound 128 exceeds the 12 rows of the array, hence the limit on the number of tokens.
- Echo.EchoStep: asks for a prompt that ends in a backspace character and not at the end of a row, as the shell
  prints it.
- `puts_buff`, splash text and colours of messages: display code; it can leave the cursor behind the last cell.
- `cp`, `mv`, `cat`, `ls`, `touch`, `mkdir`: request plumbing and messages over the calls modelled here.
