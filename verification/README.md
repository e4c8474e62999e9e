# Verification of the folder, filing and metering core

The program keeps property files ("Objektakten") in Google Drive: every object has one folder with a fixed set of main
folders and subfolders, documents are read, classified and filed into them, and duplicates and empty folders are
cleaned up afterwards. This project models the parts of it that hold state over long runs and proves what the program
promises about them.

**The drive** (`Drive`, `Tree`, `FileCount`, `ChangeLog`, `Sorting`). The store with its entries, parents, trash and
running change number is the class `InMemoryDrive`, whose methods update its fields in place; each one is proved
against a function on store values. On top of it: the walk through a folder (exactly the live entries inside, parents
before children), the bag of files below a folder, and the change log read page by page by a consumer that follows
tokens while the drive goes on changing.

**Cleaning up** (`CleanupPlan`, `CleanupRun`, `Takeover`, `RetryQueue`). The planner sorts the files of a tree and finds
the folders that hold nothing worth keeping by one backward pass over the walk. The executor sends files and folders to
the trash while any call may fail and other users change the drive between calls. Duplicates go only while their
original is live.

**Folder reconciliation** (`ReconcilePlan` to `ReconcileRunner`, `ReconcileMeaning`). The planner compares the folders of an object with the
catalogue and lists actions: register, create, rename an old name, ask a person. The executor carries the list out and
keeps the index of registered folders. `ReconcilePlan` and `ReconcileRun` give the two as functions,
`ReconcilePlanner.Planner` and `ReconcileRunner.Runner` are the imperative forms proved equal to them. The chain of
modules in between proves that the plan is consistent, that a run builds exactly what was planned, and what a second
run finds. `ReconcileMeaning` tells the plan from the names in the drive alone.

**Deciding and filing** (`OwnerChecks`, `OwnerMeaning`, `Segments`, `Decide`, `DecideMeaning`, `Naming`, `Transfer`).
Which owner file a document goes to, how a master document is cut into segments, the whole decision as a draft that is
changed step by step, the name of an owner folder, and handing a document over to another object. `OwnerMeaning` and
`DecideMeaning` tell the outcome from the assignments, and from category, confidence, year and parties alone.

**Bounded arithmetic** (`CostBrake`, `Backoff`, `PdfTables`, `Masking`, `Iban`). The cost brake in front of the AI
providers, the token bucket and the retry loop, rows and columns of a scanned table, splicing placeholders into a text,
and the check digits of ISO/IEC 7064, system MOD 97-10.

Where the code and what it promises part, the code is followed:

- A second reconciliation run can open a new case. When the comparison of names takes a category's own name for one of
  its own former names, the folder the first run created or renamed is mistaken for a former one.
  `ReconcileFixpoint.SecondRunChangesNothingIff` gives the exact condition, `ReconcileExample.SecondRunMayAsk` an input.
- Duplicates that are each other's originals are all trashed: `Takeover.CycleLosesContent`, with the exact condition in
  `Takeover.ContentKeptIff`.
- A transfer checks the status on the row read before the lock, not on the locked one. Called with a stale row it
  breaks the chain of rows: `Transfer.StaleReading`, with the exact condition in `Transfer.TransferKeepsIff`.
- A negative burst gives the token bucket a negative capacity; the bound then fails already for one request:
  `Backoff.NegativeBurst`.
- `_fit_length` is said to leave at least three characters of the name part. It strips blanks, dots and dashes
  afterwards, so fewer may remain: `Naming.OneLetterLeft`, with the exact condition in `Naming.ThreeLettersKeptIff`.
- A numbered owner-folder name can be longer than the limit when the limit is smaller than the suffix:
  `Naming.LongerThanAllowed`, with the exact condition in `Naming.ResolvedFitsIff` and a bound to check beforehand in
  `Naming.RoomSuffices`.
- The cells of a table row read in order need not give the row back: `PdfTables.OverlappingWords`, with the exact
  condition in `PdfTables.CellsSpellRowIff`.

## Model

| member | source | states |
|---|---|---|
| Drive.ApplyKeepsValid | src/apps/drive/adapter.py:332-576 | every operation of the store, allowed or refused, keeps ids fresh, each change number with one file and within the counter, and a removal stamp with exactly the files that are gone |
| Drive.OneFileTouched | src/apps/drive/adapter.py:332-576 | an operation is refused without a trace exactly when a file it needs is missing; otherwise it counts one change, stamps it on its file and touches no other |
| Drive.FileAfter | src/apps/drive/adapter.py:404-576 | what becomes of that file: only what the operation names changes, a move takes one parent out and appends the other |
| Drive.UndoneIsAsBefore | src/apps/drive/adapter.py:415-480 | moving a file back, taking it out of the trash or giving it its old name restores the entries |
| Drive.InMemoryDrive.TouchEntry | src/apps/drive/adapter.py:324-329 | only the last change of a file stays in the log, under the next running number |
| Drive.InMemoryDrive.CreateFolder | src/apps/drive/adapter.py:460-463 | a new folder below an existing parent under a fresh id; with an unknown parent or a failing call nothing changes |
| Drive.InMemoryDrive.SetTrash | src/apps/drive/adapter.py:415-428 | flips the trash mark of one entry and logs it, fails exactly for unknown ids, and changes nothing when the call fails |
| Drive.InMemoryDrive.RenameEntry | src/apps/drive/adapter.py:465-471 | changes one name and logs it; otherwise as trashing |
| Drive.InMemoryDrive.MoveEntry | src/apps/drive/adapter.py:473-480 | removes the old parent, adds the new one; succeeds exactly when file and target exist |
| Drive.InMemoryDrive.DeletePermanently | src/apps/drive/adapter.py:430-435 | the entry is gone and the log remembers the removal |
| Drive.InMemoryDrive.SetAppProperties | src/apps/drive/adapter.py:564-576 | merges values and drops keys set to nothing |
| Tree.ListChildren | src/apps/drive/adapter.py:449-454 | exactly the live children, each once, in the deterministic order |
| Sorting.SortedOnce | src/apps/drive/adapter.py:214-216 | the deterministic order leaves no choice: two sorted listings of the same entries are equal |
| Tree.WalkExact | src/apps/drive/adapter.py:516-527 | the walk visits an entry if and only if a path of live folders leads to it |
| Tree.WalkListed | src/apps/drive/adapter.py:516-527 | every visit names a parent that lists the entry |
| Tree.WalkTopDown | src/apps/drive/adapter.py:516-527 | no entry is visited twice and every folder before everything inside it |
| Tree.InsideTop | src/apps/drive/adapter.py:520-527 | being inside a folder unfolds into its children, the step the walk takes |
| Tree.Comparable | src/apps/drive/adapter.py:516-527 | of two folders that hold the same entry one holds the other |
| FileCount.WalkKeepsFiles | src/apps/drive/adapter.py:218-225 | new folders and new names, which change the order of the walk, leave the bag of counted files unchanged below every old folder |
| FileCount.FilesKept | src/apps/drive/adapter.py:218-225 | hence the count and the hash over the ids are the same before and after |
| FileCount.BagIs | src/apps/drive/adapter.py:218-225 | the bag holds every live file inside the folder once and nothing else |
| FileCount.SumReordered | src/apps/drive/adapter.py:214-225 | the count does not depend on the order in which children are listed |
| ChangeLog.Pending | src/apps/drive/adapter.py:534-562 | the changes not yet read, in the order of their numbers, each file once |
| ChangeLog.PendingExact | src/apps/drive/adapter.py:534-562 | a file is pending if and only if its last change is at or after the token |
| ChangeLog.ListChanges | src/apps/drive/adapter.py:534-562 | one page: a refused token, or the first changes with the token to go on from |
| ChangeLog.PageCovers | src/apps/drive/adapter.py:534-562 | a page holds exactly the files whose last change lies between its token and the next |
| ChangeLog.PageHolds | src/apps/drive/adapter.py:534-562 | a page holds at most its size, each file once in the order of the last changes and as it is now, and names a next page exactly when files are left over |
| ChangeLog.MutationKeepsFaithful | src/apps/drive/adapter.py:324-329 | a mutation cannot spoil what the mirror knows: the touched file moves beyond the cursor |
| ChangeLog.ConsumeKeepsFaithful | src/apps/sync/drive_changes.py:320-341 | applying a page, or failing to read one, leaves the mirror right for every file below the cursor, and the cursor never goes back |
| ChangeLog.ConsumeAt | src/apps/sync/drive_changes.py:320-341 | after a page the mirror agrees with the drive on every file whose last change is below the new cursor |
| ChangeLog.MirrorFollows | src/apps/sync/drive_changes.py:288-374 | over any mix of mutations, pages and failed calls, starting from a snapshot and its start token |
| ChangeLog.PageStep | src/apps/drive/adapter.py:534-562 | each page shortens what is pending by its size, the last one makes the mirror equal to the drive |
| ChangeLog.PollCatchesUp | src/apps/sync/drive_changes.py:320-341 | when mutations stop, polling ends with a mirror equal to the drive if and only if the page budget covers what is pending |
| CleanupPlan.HollowStep | src/apps/drive/auto_cleanup.py:132-139 | nothing below a folder needs to stay if and only if that holds for its own files and, one level down, for its folders |
| CleanupPlan.ReadWalk | src/apps/drive/auto_cleanup.py:77-95 | folders with their parents and files in the order of the walk, or stop exactly when there are more files than allowed |
| CleanupPlan.Classify | src/apps/drive/auto_cleanup.py:121-131 | every file is junk or kept with its reason, and a folder counts as keeping if and only if a kept file lies directly in it |
| CleanupPlan.GuardIff | src/apps/drive/auto_cleanup.py:97-115 | a folder is protected if and only if it was protected before or is such a year folder |
| CleanupPlan.EmptyFolders | src/apps/drive/auto_cleanup.py:132-144 | the backward pass lists a folder if and only if its whole subtree holds no kept file and no protected folder (the root only when allowed), every folder before the folders above it |
| CleanupPlan.PlanTree | src/apps/drive/auto_cleanup.py:60-145 | when planning is blocked, and otherwise that junk, kept files and empty folders are exactly the right ones |
| CleanupPlan.PlanMeans | src/apps/drive/auto_cleanup.py:97-144 | the plan told from drive, registered files and names: junk is a file without document, no Google document, with a name to ignore; a folder goes if and only if everything below it may go |
| CleanupRun.SweepRun.TrashFile | src/apps/drive/auto_cleanup.py:249-255 | one file: a failed call leaves everything and is counted |
| CleanupRun.SweepRun.TrashFolder | src/apps/drive/auto_cleanup.py:269-283 | one folder: trashed only when it is empty at that moment and neither call fails |
| CleanupRun.Execute | src/apps/drive/auto_cleanup.py:247-283 | the two loops carry out the specified sweep, and every listed item ends in exactly one count |
| CleanupRun.SweepTakesOnlyListed | src/apps/drive/auto_cleanup.py:247-283 | under any failures and any interference each trash call takes exactly one entry out of reach, and that entry stands in the plan |
| CleanupRun.SweepSparesTheRest | src/apps/drive/auto_cleanup.py:247-283 | an entry outside the lists, old or added meanwhile, that nobody else removes stays live, and so does every folder above it |
| CleanupRun.QuietSweep | src/apps/drive/auto_cleanup.py:247-283 | undisturbed, the sweep trashes exactly what the plan lists and no live check stops it |
| CleanupRun.EveryItemTallied | src/apps/drive/auto_cleanup.py:247-283 | under any failures and interference every listed item is trashed by one call that went through or counted as an error |
| CleanupRun.FilesUnderFaults | src/apps/drive/auto_cleanup.py:249-262 | with failing calls and nobody else at work exactly those files are trashed whose call went through |
| CleanupRun.TrashedFoldersAreBare | src/apps/drive/auto_cleanup.py:263-283 | whatever calls fail, a folder the run trashed holds no live entry afterwards |
| CleanupRun.SecondPlanIsEmpty | src/apps/drive/auto_cleanup.py:60-145 | a plan made after an undisturbed sweep finds no junk, no empty folder and the same kept files |
| Takeover.OriginalReachable | src/apps/drive/takeover.py:432-445 | whether the original is filed, in the same object and live, whatever the cache already holds |
| Takeover.SortFiles | src/apps/drive/takeover.py:515-545 | duplicates, junk and remaining files are exactly the right ones, and a folder counts as keeping if and only if a remaining file lies directly in it |
| Takeover.PlanCleanup | src/apps/drive/takeover.py:448-562 | blocked or exact: the files that go, and a folder if and only if nothing that remains and nothing protected is below it, innermost first |
| Takeover.ListMeans | src/apps/drive/takeover.py:432-562 | the list told from documents and drive: a duplicate goes only with a kept original of the same object whose file is live, junk has no document, and a folder goes if and only if all files below it go and it holds no protected folder |
| Takeover.PlanDuplicateFolder | src/apps/drive/takeover.py:563-593 | exactly the live files of the duplicates folder that pass the same test |
| Takeover.CleanupJob.TrashItem | src/apps/drive/takeover.py:631-686 | trash the file, then retire its document; a failed booking leaves the document as it was |
| Takeover.RunCleanup | src/apps/drive/takeover.py:624-703 | the loops carry out the specified clean-up in their order; every file and folder of the plan is counted as trashed or reported as an error, a failed booking in addition, and the documents counted are exactly those retired |
| Takeover.CleanUpCompletes | src/apps/drive/takeover.py:624-703 | undisturbed, the clean-up trashes exactly the files of all three lists and the empty folders and retires exactly the documents of the two lists of duplicates |
| Takeover.RetiredOnlyIfBooked | src/apps/drive/takeover.py:650-679 | a document is retired only by the item that lists it, with a trash call and a booking that both went through, and is otherwise left as it was |
| Takeover.CleanUpIsSweep | src/apps/drive/takeover.py:687-703 | on the drive the clean-up is the same sweep as the automatic one |
| Takeover.CleanUpSparesTheRest | src/apps/drive/takeover.py:626-703 | so nothing outside its lists goes out of reach, under the same failures and interference |
| Takeover.PlanIsReady | src/apps/drive/takeover.py:509-562 | what the planner lists satisfies everything the content theorems ask of a run |
| Takeover.LeavingKeepsContent | src/apps/drive/takeover.py:432-445 | if the chain of originals leaves the list, it ends at a document whose file is live after the run, whichever calls fail and whatever others do to anything but the files of documents off the list |
| Takeover.ContentKeptIff | src/apps/drive/takeover.py:626-679 | with all trash calls going through and nothing restored by others, content survives if and only if the chain of originals leaves the list |
| Takeover.NoContentLost | src/apps/drive/takeover.py:626-679 | without cycles of originals every document that reached live content before still does, also when originals are duplicates trashed in the same run, under the same failures and interference |
| Takeover.NothingOutOfReach | src/apps/drive/takeover.py:626-703 | and the file it reaches is live together with every folder above it, if live files were so before |
| Takeover.PlannedRunLosesNothing | src/apps/drive/takeover.py:448-703 | the same for the list the planner itself made |
| Takeover.CycleLosesContent | src/apps/drive/takeover.py:432-445 | two duplicates of each other pass the test and both are lost |
| RetryQueue.RunAll | src/apps/drive/takeover.py:928-954 | the queue tries every source once and the locked ones once more at the end, then stops; done and failed add up to the sources |
| RetryQueue.OneTry | src/apps/drive/takeover.py:930-947 | what one try does to the queue and to the set of those already put back |
| RetryQueue.AddsUp | src/apps/drive/takeover.py:934-947 | at every moment of the second round, done and failed account for all tries but those put back |
| RetryQueue.SecondRound | src/apps/drive/takeover.py:936-947 | folders that met a lock come again in the order of their first tries |
| RetryQueue.CountersCount | src/apps/drive/takeover.py:934-947 | the two counters are the numbers of tries that were done, and that failed or met a second lock |
| ReconcilePlan.FolderKids | src/apps/drive/reconcile.py:342-351 | the live folders below a folder in the deterministic order |
| ReconcilePlanner.Planner.OldName | src/apps/drive/reconcile.py:354-418 | one category's former names: rename a single one, ask about several or about old beside new and block the category, and remember the rename |
| ReconcilePlanner.Planner.MainFolder | src/apps/drive/reconcile.py:420-484 | one main folder: register the one match, ask when it is not clear, create when nothing resembles the name |
| ReconcilePlanner.Planner.SubfoldersOf | src/apps/drive/reconcile.py:486-559 | the subfolders of one category below the folder that already stands for it, none while the category waits for a decision |
| ReconcilePlanner.PlannedParent | src/apps/drive/reconcile.py:623-634 | the first action that names a main folder of the category |
| ReconcilePlanner.ScanFinds | src/apps/drive/reconcile.py:623-634 | that scan over the actions so far finds exactly the folder the category has, renamed or registered |
| ReconcilePlanner.Planner.ByYear | src/apps/drive/reconcile.py:570-574 | the folders grouped by year, each group in listing order |
| ReconcilePlanner.Planner.YearFoldersOf | src/apps/drive/reconcile.py:564-598 | years in ascending order, one register or one question each, and the ids of all year folders seen |
| ReconcilePlanner.PlanObject | src/apps/drive/reconcile.py:327-615 | the planner with its growing lists and sets computes the specified plan and writes nothing |
| ReconcileMeaning.PlanFailsIff | src/apps/drive/reconcile.py:330-340 | planning stops with an error exactly when the drive root is unusable or a new object folder is needed and cannot be named with its number |
| ReconcileMeaning.ObjectFolderIsTheNumbered | src/apps/drive/reconcile.py:676-754 | without a stored folder the object folder is the only live folder of the drive root whose name carries the number of the object; several are asked about, some only in the trash are asked about, and one is created if and only if there is none |
| ReconcileMeaning.StoredFolderIsKept | src/apps/drive/reconcile.py:640-675 | a stored folder is the object folder if and only if it is a live folder, and else only asked for |
| ReconcileMeaning.UnclearRootOnlyAsks | src/apps/drive/reconcile.py:643-735 | a question about the object folder is the whole plan and names exactly the folders in question |
| ReconcileMeaning.MainFolderPlan | src/apps/drive/reconcile.py:353-484 | what a plan does with a main folder, told from the names in the object folder: when it renames, which one it registers, when and where it creates |
| ReconcileMeaning.LowerFolderPlan | src/apps/drive/reconcile.py:485-598 | the same for subfolders and year folders, only in the folder of a category that is settled |
| ReconcileMeaning.QuestionsPlan | src/apps/drive/reconcile.py:353-598 | a plan asks about a category exactly what its folders call for, bars exactly the categories in conflict, and holds nothing outside the catalogue |
| ReconcileMeaning.QuestionNames | src/apps/drive/reconcile.py:359-598 | a question names exactly the folders in question |
| ReconcileMeaning.YearsSeen | src/apps/drive/reconcile.py:564-578 | the year folders a run counts as seen are the live folders with a year for a name in the folder of the year category |
| ReconcileRun.RegisteredUnambiguous | src/apps/drive/reconcile.py:824-891 | registering keeps drive ids unique and at most one active row per position |
| ReconcileRun.RegisteredHolds | src/apps/drive/models.py:109-131 | after registering, the folder holds the position alone and holds no other position |
| ReconcileRun.WritesAreDriveOperations | src/apps/drive/adapter.py:460-471 | the two writes of a run are the drive's own create and rename |
| ReconcileRunner.Runner.RegisterNode | src/apps/drive/reconcile.py:824-891 | displace other rows of the position, then rewrite or add the folder's row; stop when the database refuses |
| ReconcileBuild.CreateGoesThrough | src/apps/drive/reconcile.py:894-971 | in an undisturbed run of a consistent list every parent reference of a create resolves, to the folder it names or to the one this run made for that position, and a new folder is created there |
| ReconcileRunner.Runner.Create | src/apps/drive/reconcile.py:959-1014 | create only if no folder of that name is there, register it and resolve its position; a failed write stops all later writes |
| ReconcileRunner.Runner.Rename | src/apps/drive/reconcile.py:1015-1066 | rename, count again, and stop with a late review when the count differs |
| ReconcileRunner.Runner.CreateReview | src/apps/drive/reconcile.py:1125-1144 | one open case per object, category and kind of question |
| ReconcileRunner.Runner.RunAll | src/apps/drive/reconcile.py:929-1081 | the loop over a list that grows while it runs is the specified run |
| ReconcileRunner.Runner.DropMissingYears | src/apps/drive/reconcile.py:1089-1102 | only active year rows of this object that were not seen are marked missing |
| ReconcileRunner.Runner.Conclude | src/apps/drive/reconcile.py:1082-1102 | the final count of a known object folder, then the year rows, unless that count fails |
| ReconcileRunner.ReconcileObject | src/apps/drive/reconcile.py:285-313 | planning and execution together; a dry run or a failed plan leaves the drive as it was |
| ReconcileSafety.RunKeeps | src/apps/drive/reconcile.py:904-1108 | any run under any failures only adds folders and changes names, and keeps the index unambiguous |
| ReconcileSafety.RunConservesFiles | src/apps/drive/reconcile.py:904-1108 | no run changes the bag of files below any folder that was there before |
| ReconcileSafety.NoLateReview | src/apps/drive/reconcile.py:1036-1053 | a rename never counts differently from the plan, whatever fails around it |
| ReconcileSafety.NothingAfterFailure | src/apps/drive/reconcile.py:932-935 | while the list is carried out no drive call follows a failed one, and no write either |
| ReconcileSafety.StoppedStays | src/apps/drive/reconcile.py:932-935 | once writing has stopped the rest of the list leaves the drive alone and makes no call |
| ReconcileSafety.CasesOpened | src/apps/drive/reconcile.py:1125-1144 | a run that is not cut short leaves open exactly the cases that were open and those its list asks for, failures or not |
| ReconcileSafety.YearRowsAfter | src/apps/drive/reconcile.py:1082-1102 | at the end exactly the active year rows of the object whose folder was not seen count as missing |
| ReconcilePost.NeverMiscounted | src/apps/drive/reconcile.py:1036-1053 | so a run of the planner's own list never stops over the count of a rename |
| ReconcileCatalogue.MainCreates | src/apps/drive/reconcile.py:419-484 | a main folder is created once, exactly for the categories that are neither blocked nor renamed and that nothing resembles |
| ReconcileCatalogue.AllSubCreates | src/apps/drive/reconcile.py:485-559 | no subfolder is created twice |
| ReconcileConsistent.AbsentIff | src/apps/drive/reconcile.py:424-484 | a folder is missing if and only if no folder resembles its name exactly, normalised or loosely |
| ReconcileConsistent.NodesDiffer | src/apps/drive/reconcile.py:623-634 | two categories never claim the same folder |
| ReconcileConsistent.ShapeOf | src/apps/drive/reconcile.py:353-598 | every action of a plan comes from one category, subfolder or year, and from what was found there |
| ReconcileConsistent.PlanConsistent | src/apps/drive/reconcile.py:327-615 | a plan never contradicts itself: every position created once, every folder renamed once, parents before children, and no create or rename collides with a name that is there or comes |
| ReconcileBuild.AllBuilt | src/apps/drive/reconcile.py:929-1066 | a run of a consistent list without failures builds exactly what it lists: each create is a new folder under its parent, each rename takes effect, nothing else changes, and the rows are those of the list |
| ReconcileBuild.NothingExists | src/apps/drive/reconcile.py:961-971 | the create-if-absent check never finds a folder in such a run |
| ReconcileSettled.MainMembers | src/apps/drive/reconcile.py:959-1066 | after the run the object folder holds its old folders and the new main folders, and nothing else |
| ReconcileSettled.AllSettled | src/apps/drive/reconcile.py:904-1066 | the state in which the second run finds every category: its own folder under the catalogue name, everything else as before |
| ReconcileGrowth.WrittenFound | src/apps/drive/reconcile.py:419-484 | a category written by the first run is found again as one exact match |
| ReconcileGrowth.Unwritten | src/apps/drive/reconcile.py:353-484 | a category not written is found as before, although folders of others were added or renamed beside it |
| ReconcileAgain.SecondList | src/apps/drive/reconcile.py:327-615 | every action of the second plan is a register, a question the first plan asked already, or the one question a category can raise against its own name |
| ReconcileAgain.BlockedStays | src/apps/drive/reconcile.py:359-402 | a category blocked in the first plan is blocked in the second |
| ReconcileAgain.FlipAsked | src/apps/drive/reconcile.py:359-388 | the second plan does ask that one question |
| ReconcileAgain.FlipNotAsked | src/apps/drive/reconcile.py:359-388 | and the first plan did not |
| ReconcileFixpoint.SecondRunChangesNothingIff | src/apps/drive/reconcile.py:327-615 | from every starting tree, after a run without errors a second run under any failures leaves the drive as it is, and it changes nothing at all if and only if every case a category raises against its own name is open already |
| ReconcileFixpoint.SecondRunChangesNothing | src/apps/drive/reconcile.py:904-1108 | so the second run changes nothing whenever no category has its own name among its former names |
| ReconcileFixpoint.EveryLaterRunChangesNothing | src/apps/drive/reconcile.py:904-1108 | nor does any later run, whichever calls fail in them |
| ReconcileFixpoint.FileFreeNeverAborts | src/apps/drive/reconcile.py:824-891 | the database never refuses a row as long as no row belongs to an owner or tenant file |
| ReconcileExample.SecondRunMayAsk | src/apps/drive/reconcile.py:356-388 | an empty object and one category with its own name among its former names: the second run opens a case |
| ReconcilePost.OneMainFolder | src/apps/drive/reconcile.py:1204-1216 | after a run without errors every category that is neither blocked nor waiting for a decision has a live main folder in the object folder that holds the position; no other active row does but rows of owner or tenant files, and not even those if none of them held it before |
| OwnerChecks.BuildGroups | src/apps/classification/decide.py:140-145 | grouping by period through a dictionary and sorting the keys gives the specified groups |
| OwnerChecks.GroupsInTime | src/apps/classification/decide.py:145 | whoever stands in an earlier group holds the unit for an earlier period, open ends before and after every date |
| OwnerChecks.GroupsPartition | src/apps/classification/decide.py:140-145 | no group is empty, every assignment is in one, none in two |
| OwnerChecks.MakeLinks | src/apps/classification/decide.py:184-205 | one link per assignment, to the file of its group; only the first one carries the document, and no assignment precedes its own |
| OwnerChecks.EarliestCarries | src/apps/classification/decide.py:184-205 | of the links of any assignments only the first carries the document, and it goes to the file of the earliest period |
| OwnerChecks.OnePrimary | src/apps/classification/decide.py:184-205 | of the links of any assignments exactly one carries the document |
| OwnerChecks.InNamedOrderIs | src/apps/classification/decide.py:225 | named owners are taken in the order in which the document names them |
| OwnerChecks.CheckOwners | src/apps/classification/decide.py:160-366 | the branches by unit, owner and period give the specified links and case |
| OwnerChecks.NamedOwners | src/apps/classification/decide.py:207-268 | the branch of a named owner on a known unit, in the order the owners are named |
| OwnerChecks.ChecksOneTarget | src/apps/classification/decide.py:160-366 | every outcome has one target: exactly one carrying link, or no link and a case that names a file or a waiting place |
| OwnerMeaning.SameGroupIff | src/apps/classification/decide.py:140-145 | two assignments share a group if and only if they hold the unit for the same period |
| OwnerMeaning.EarlierMeans | src/apps/classification/decide.py:145 | open beginnings come before, open ends after every date, and the beginning counts before the end |
| OwnerMeaning.LinkedFile | src/apps/classification/decide.py:184-205 | the file of a link is that of exactly the assignments of one period |
| OwnerMeaning.UnitAndOwnersMeans | src/apps/classification/decide.py:207-268 | unit and owners known: exactly the named holders are linked, failing that those of the period, failing that those of any time with less confidence, else the one question |
| OwnerMeaning.UnitOnlyMeans | src/apps/classification/decide.py:269-296 | only the unit known: all its holders are linked if and only if it does not change hands in the period |
| OwnerMeaning.OwnersOnlyMeans | src/apps/classification/decide.py:297-353 | only owners known: linked with their co-owners when they hold one unit, asked about when several, a file of their own and a question when none |
| OwnerMeaning.NobodyMeans | src/apps/classification/decide.py:354-366 | neither known: no link, and the question that names the file for the unassigned |
| OwnerMeaning.FirstNamedCarries | src/apps/classification/decide.py:187-230 | of the named owners of the earliest period the one named first carries the document |
| Segments.HeadsFacts | src/apps/classification/decide.py:377-383 | segments start at the head pages, do not overlap and cover every page from the first head to the last page |
| Segments.RunsFacts | src/apps/classification/decide.py:390-403 | segments are the maximal runs of consecutive hits: apart by at least one page, and covering exactly the hit pages |
| Segments.FindSegments | src/apps/classification/decide.py:370-404 | the pages are selected and cut as specified, with the subfolder and the type of the parts |
| Segments.StretchesFacts | src/apps/classification/decide.py:370-404 | no two segments of a document share a page; they cover everything from the first head on, or exactly the pages of the minutes that concern an owner |
| Segments.StatementsBegin | src/apps/classification/decide.py:370-388 | single statements begin exactly on the pages with a head of their own, and their kind follows from that of the overall statement |
| Segments.StatementsCover | src/apps/classification/decide.py:377-383 | they cover every page from the first such page to the last of the document |
| Segments.MinutesMean | src/apps/classification/decide.py:389-404 | of minutes exactly the pages are covered that hold an item and name a unit or an owner |
| Decide.MasterCuts | src/apps/classification/decide.py:826-846 | every link of a master document belongs to one of its segments, and links of different segments share no page |
| Decide.DecisionKeepsPromises | src/apps/classification/decide.py:542-1003 | every decision that does not wait for stage 3 has a place; in 06 it has a case unless it is the automatic e-mail filing; an existing file with a serious case does not move outside the named exceptions; in 05 it has exactly one owner file; links of master documents never carry |
| Decide.DecideDocument | src/apps/classification/decide.py:542-602 | the draft changed step by step ends in the specified decision and keeps these promises |
| Decide.DecideCore | src/apps/classification/decide.py:605-1003 | the same for the core, branch by branch |
| DecideMeaning.PlaceOfDocument | src/apps/classification/decide.py:605-1003 | a document is filed in its own category unless it is unsure, belongs to 06, lacks its year, is a tenant's in an owners' association or leaves a question that waits: then, and only then, it is in 06 |
| DecideMeaning.DraftOrigin | src/apps/classification/decide.py:616-660 | every field of the draft comes from a stage that chose the category, the rules before the model before the AI unless that one decided, and a year is only filled in |
| DecideMeaning.SenderPuts | src/apps/classification/decide.py:479-523 | when a known sender decides, what it puts in, and that any other one is only noted |
| DecideMeaning.FirstUnitKept | src/apps/classification/decide.py:494-500 | of several units the first one that belongs to the owner who wrote comes first afterwards |
| DecideMeaning.UnsureWaits | src/apps/classification/decide.py:689-750 | below the threshold: 06/01 with the case, an e-mail without one exactly under the switch, an existing file stays |
| DecideMeaning.MiscellaneousAsks | src/apps/classification/decide.py:751-789 | category 06: the subfolder of the rules if the catalogue knows it, one case, and when the file may move |
| DecideMeaning.YearIsAsked | src/apps/classification/decide.py:790-809 | a type that needs a year and has none waits in 06/02 |
| DecideMeaning.MasterDocument | src/apps/classification/decide.py:810-886 | master documents stay in their category; their links and cases are exactly those found for the segments |
| DecideMeaning.TenantDocument | src/apps/classification/decide.py:887-922 | category 04 is filed in 04 with exactly the tenants of the context and asks if and only if there are none; in an owners' association it waits in 06/02 |
| DecideMeaning.RentalDocument | src/apps/classification/decide.py:923-988 | category 05 of a rented house goes to the file of the house, linked to the owners it names or to all of them, confirmed exactly when nothing speaks against it |
| DecideMeaning.OwnerDocument | src/apps/classification/decide.py:989-1003 | category 05 elsewhere: the links and the question of the owner checks, in 05 unless the question waits in 06 |
| Decide.MasterKeeps | src/apps/classification/decide.py:810-886 | master documents in 01 to 03 with their segments |
| Decide.RentalKeeps | src/apps/classification/decide.py:923-988 | owner documents of a rented house: one carrying link to the one file of the object, or a case naming that file |
| Decide.OwnerKeeps | src/apps/classification/decide.py:989-1003 | other owner documents, with the outcome of the owner checks |
| Decide.FiledKeeps | src/apps/classification/decide.py:1312-1316 | what follows the threshold keeps the promises, so the assertion before storing holds |
| Decide.SenderFacts | src/apps/classification/decide.py:479-523 | a safe decision for 01 to 03 and an ambiguous sender change nothing but the mark of the sender, confidence never falls, owner mail ends in 05 with a subfolder and with units of this owner only (unless it proves a change of ownership), tenant mail in 04, and neither is uncertain afterwards |
| Decide.Draft.FileSegment | src/apps/classification/decide.py:827-884 | the links and the case of one segment, none of the links carrying |
| Naming.FitLengthFits | src/apps/drive/naming.py:167-186 | a fitted name is never longer than the limit |
| Naming.TokenKeptIff | src/apps/drive/naming.py:167-186 | the name begins with a non-empty part of the unit token and the separator if and only if nothing is cut or the limit leaves room for that |
| Naming.ThreeLettersKeptIff | src/apps/drive/naming.py:177-186 | a cut leaves at least three characters of the name part if and only if, in the room behind the token, a character from the third on is no blank, dot or dash |
| Naming.OneLetterLeft | src/apps/drive/naming.py:179-186 | a long token and the name "A. Bauer" at a limit of ten: one letter remains |
| Naming.NameIs | src/apps/drive/naming.py:160-186 | a fitted name is token and all names if they fit, else token and first name with the mark if that fits, else cut |
| Naming.CutNameIs | src/apps/drive/naming.py:177-186 | what a cut keeps of token and name part |
| Naming.SuffixedIs | src/apps/drive/naming.py:189-192 | a suffix is appended whole, to as much of the name as leaves room for it |
| Naming.NumberedDiffer | src/apps/drive/naming.py:189-192 | candidates with different numbers differ even after cutting |
| Naming.ResolveCollision | src/apps/drive/naming.py:195-207 | the loop ends with the first free candidate: the name, the year, then 2, 3 and so on |
| Naming.ResolvedIsFree | src/apps/drive/naming.py:195-207 | the result is no other file's name |
| Naming.ResolvedOnce | src/apps/drive/naming.py:195-207 | the rule leaves no choice |
| Naming.ChosenIs | src/apps/drive/naming.py:195-207 | the name chosen, told from the taken names: as it stands, else with the year, else with the first free number from 2 on |
| Naming.SuffixFitsIff | src/apps/drive/naming.py:189-192 | a suffixed name fits if and only if the suffix itself does |
| Naming.ResolvedFitsIff | src/apps/drive/naming.py:195-207 | the result fits if and only if the suffix that the taken names call for fits |
| Naming.CounterBounded | src/apps/drive/naming.py:202-207 | the counter never exceeds the number of taken names plus two |
| Naming.RoomSuffices | src/apps/drive/naming.py:195-207 | so a limit with room for the year and for that counter is never exceeded |
| Naming.LongerThanAllowed | src/apps/drive/naming.py:189-201 | a taken name at a limit of three: the year suffix alone is longer |
| Naming.ResolvedAgain | src/apps/drive/naming.py:195-207 | given back as the current name, with the names of the others still taken, the result is chosen again |
| Naming.BuildName | src/apps/drive/naming.py:210-223 | fitting and resolving together: a free name, within the limit if and only if the suffix called for has room |
| Transfer.Documents.TransferDocument | src/apps/documents/transfer.py:23-82 | accepted exactly when the rows allow it, each refusal with its reason; the new row takes over hash, drive file and UUID, the old row points to it, and no other row changes |
| Transfer.TransferredTo | src/apps/documents/transfer.py:33-82 | after an accepted transfer the chain of the row ends at an active row of the target object with the hash and the drive file it had |
| Transfer.TransferKeepsIff | src/apps/documents/transfer.py:28-31 | a transfer keeps the table sound if and only if the locked row has not moved out already |
| Transfer.TransfersKeep | src/apps/documents/transfer.py:23-82 | any sequence of timely transfers keeps it sound |
| Transfer.FilesFollow | src/apps/documents/transfer.py:42-75 | over any timely sequence a drive file held by a row is held by exactly one row, the end of its chain |
| Transfer.EndFacts | src/apps/documents/transfer.py:71-82 | following the references from any row ends at a row in place that bears the UUID the document was born with |
| Transfer.OneRowInPlace | src/apps/documents/transfer.py:76-82 | that row is the only one in place with this UUID |
| Transfer.TrailFacts | src/apps/documents/transfer.py:71-75 | the trail goes forward in time and keeps the hash |
| Transfer.TrailVisitsOnce | src/apps/documents/models.py:301-304 | with a known hash it visits no object twice |
| Transfer.FirstState | src/apps/documents/models.py:301-304 | a table without transfers is sound |
| Transfer.StaleReading | src/apps/documents/transfer.py:28-31 | a stale reading can break the chain |
| CostBrake.Router.CostOfObject | src/apps/ai/router.py:69-71 | the sum booked for one provider and one object |
| CostBrake.Router.CostThisMonth | src/apps/ai/router.py:455-458 | the sum booked for one provider since the beginning of the month |
| CostBrake.Router.IsStopped | src/apps/ai/router.py:130-147 | the brake: no price under a limit, limit reached, or monthly cap reached |
| CostBrake.Router.Try | src/apps/ai/router.py:175-368 | the attempts with one provider as specified |
| CostBrake.AttemptsTrace | src/apps/ai/router.py:175-368 | a series sends its attempts one after the other, each booked and logged with the cost of its answer, and ends with the first answer that is not to be repeated or after its attempts |
| CostBrake.Router.Classify | src/apps/ai/router.py:93-379 | the providers in order as specified |
| CostBrake.CallTold | src/apps/ai/router.py:93-379 | one call seen from outside: only enabled providers, in their order, none asked after a good answer, and what the caller is told |
| CostBrake.WalkAsks | src/apps/ai/router.py:118-150 | no provider is passed over without a reason |
| CostBrake.AttemptsCost | src/apps/ai/router.py:312-341 | one series books at most the number of attempts times the dearest call, for one provider and object, and never lowers a sum |
| CostBrake.RunHonest | src/apps/ai/router.py:312-356 | over any sequence of calls what is booked for a provider and object, and for a provider and month, is the sum of the costs of the answers it received |
| CostBrake.SpendingIsLimited | src/apps/ai/router.py:122-173 | so the cost really incurred stays below limit and monthly cap plus one series |
| CostBrake.LimitStops | src/apps/ai/router.py:139-140 | once that cost has reached the limit of an object nothing more is sent for this provider and object |
| CostBrake.BlockedForCause | src/apps/ai/router.py:130-147 | and the brake never acts before a limit is reached or without a price missing |
| CostBrake.ObjectLimitHolds | src/apps/ai/router.py:122-173 | over any sequence of calls what is booked for a provider and an object stays below the limit plus that amount |
| CostBrake.MonthlyCapHolds | src/apps/ai/router.py:142-146 | so does what is booked for a provider within a month, under the monthly cap |
| CostBrake.NoPriceNoCall | src/apps/ai/router.py:134-139 | nothing is ever sent or booked for a provider with a limit and no price |
| Backoff.RateLimiter.constructor | src/apps/drive/backoff.py:95-109 | starts full, with at least the smallest rate |
| Backoff.RateLimiter.Acquire | src/apps/drive/backoff.py:111-123 | refill, take one token or wait for it |
| Backoff.AcquireSpends | src/apps/drive/backoff.py:111-123 | a request costs one token more than time has refilled |
| Backoff.LimitsAre | src/apps/drive/backoff.py:95-105 | rate and capacity as asked for, with their least values |
| Backoff.AcquireMeans | src/apps/drive/backoff.py:111-123 | a token that is there goes out at once; else the wait is exactly as long as one token takes |
| Backoff.RunSpends | src/apps/drive/backoff.py:111-123 | over any run of requests, tokens left plus requests made never exceed the start and the refill |
| Backoff.WindowBound | src/apps/drive/backoff.py:111-123 | between any two acquires at most capacity plus rate times the time between them are made |
| Backoff.NegativeBurst | src/apps/drive/backoff.py:104-105 | the bound holds for one request if and only if the burst is not negative |
| Backoff.RetryCall | src/apps/drive/backoff.py:48-89 | repeats exactly while the outcome allows it; every attempt sends one request behind one acquire; pauses are what the server asked for or lie between zero and the growing cap, and the metrics count attempts, errors and the sum of the pauses |
| Backoff.LastAttemptMeans | src/apps/drive/backoff.py:48-89 | outcome by outcome, what was repeated and why the last attempt was the last |
| Backoff.AttemptsBounded | src/apps/drive/backoff.py:73-87 | at most one attempt more than allowed, and that one only after a renewed login |
| Backoff.Execute | src/apps/drive/google_adapter.py:151-180 | one adapter call leaves the limiter as after that many acquires |
| Backoff.CallsBounded | src/apps/drive/google_adapter.py:151-180 | over any sequence of adapter calls, with all their retries, at most capacity plus rate times the time are sent between any two requests, and at most one request above the allowed attempts per call |
| PdfTables.GroupRows | src/apps/imports/pdf_tables.py:64-76 | rows hold every word once; the words of a row lie within the tolerance below its first word, rows are further apart, each is sorted by its left edge |
| PdfTables.MergeSpans | src/apps/imports/pdf_tables.py:92-97 | the merged spans are the components of words connected by gaps up to the smallest one, further apart than it |
| PdfTables.ColumnBounds | src/apps/imports/pdf_tables.py:79-98 | bounds strictly increase, each halfway between the right edge of one column and the left edge of the next, no candidate word crosses one, two words share a column if and only if they are connected, no column is empty |
| PdfTables.CandidatesAre | src/apps/imports/pdf_tables.py:82-86 | the rows that shape the columns: with words, no footer, and at least six tenths of the usual length unless no row is |
| PdfTables.SameColumnIff | src/apps/imports/pdf_tables.py:92-98 | the same for the midpoints of any separated spans |
| PdfTables.ColumnBack | src/apps/imports/pdf_tables.py:111 | the column found for a word lies between the bounds on both sides of it |
| PdfTables.BuildCells | src/apps/imports/pdf_tables.py:101-117 | one cell per row and column, holding the words of the row whose centre lies there |
| PdfTables.CellMeans | src/apps/imports/pdf_tables.py:101-117 | a cell holds exactly the words of its row whose middle lies between the bounds of its column |
| PdfTables.CellsHoldRow | src/apps/imports/pdf_tables.py:107-115 | the cells of a row hold every word of it once |
| PdfTables.CellsSpellRowIff | src/apps/imports/pdf_tables.py:107-115 | read from left to right they give the row back if and only if its columns do not go back |
| PdfTables.OverlappingWords | src/apps/imports/pdf_tables.py:107-115 | a long word over a short one: they change places |
| PdfTables.CandidateRises | src/apps/imports/pdf_tables.py:83-98 | which holds for every row the bounds were made from |
| Masking.TakenFacts | src/objektakte/masking.py:111-137 | the chosen spans are pairwise disjoint, and a match is left out only if it overlaps one chosen before it |
| Masking.EveryMatchCounts | src/objektakte/masking.py:111-137 | every fitting match of every pattern is masked, or shares a character with a masked one that came sooner |
| Masking.SpansFit | src/objektakte/masking.py:141-148 | sorted, they run through the text from left to right |
| Masking.MaskText | src/objektakte/masking.py:101-150 | the output is the text with exactly the chosen spans replaced, the hits are in order, and putting the originals back gives the text |
| Masking.SpliceShows | src/objektakte/masking.py:141-150 | every replacement stands in full where its span begins and every other character where it stood, moved by the replacements before it |
| Masking.RestoreSplice | src/objektakte/masking.py:142-148 | putting the slices back undoes a splice of any such spans |
| Iban.FoldIsRemainder | src/objektakte/masking.py:85-88 | for strings of any length the remainder of the big number is a fold from left to right |
| Iban.TestIsFold | src/objektakte/masking.py:79-88 | the whole test, refusals included, equals the test by folding |
| Iban.AcceptedIff | src/objektakte/masking.py:72-88 | accepted if and only if it has the shape of an IBAN, the letter O read as zero after the country code, and the check digits bring the remainder to one |
| Iban.CheckDigitsExist | src/objektakte/masking.py:79-88 | for every account exactly one of the numbers 00 to 96 is accepted as check digits |
| Iban.KnownNumber | src/objektakte/masking.py:79-88 | a number from practice is accepted exactly with check digits that leave the remainder of its own |
| Iban.OneDigitDetected | src/objektakte/masking.py:79-88 | no accepted number stays accepted when one account digit is changed |
| Iban.ExchangeDetected | src/objektakte/masking.py:79-88 | nor when two different neighbouring account digits change places |

## Left out

- Reconciliation: shortcuts to folders, the inventory of files, hints, the candidates' file counts, the columns
  parent_node, expected_name and drive_name of a row, audit records, the two file counts of a run and the database race
  between two runs (IntegrityError on insert).
- Reconciliation: `nfc`, `normTail`, `looseTail`, the year and the object number of a name are uninterpreted; the
  theorems on second runs assume that names and former names of different categories, and the subfolder names within
  one category, differ under them (`Separate`), and that the object number of a folder name depends only on its
  composed form (`NumberByForm`).
- Reconciliation: reads during planning do not fail; a failing one ends the run before anything is written. Two runs at
  the same time are excluded.
- ReconcileFixpoint.SecondRunChangesNothingIff: a second run stopped by the database is covered for the drive only, not
  for the case that it asks; `ReconcileFixpoint.FileFreeNeverAborts` says when this cannot happen.
- Cleaning up: paths, audit records and counts per trigger; blockers that come from the status of a source or from open
  jobs; between the live check of a folder and its trash call nobody else writes.
- Takeover.NoContentLost: other users may do anything but take away the files of documents off the list; they could
  trash an original at any moment, so some such limit is needed.
- Takeover.RunCleanup: closing the review cases of a retired document, the mark that the source folder itself went, and
  the texts of the error list.
- ChangeLog.MirrorFollows: the mirror applies every change; the database lookups of the real handler are not modelled,
  nor the handler's own errors.
- Decisions: rules, learned classifier, stage 3, lookups of units, owners and senders, switches and thresholds are
  inputs; reasons, candidates, proposals, counters, titles and lease facts are not part of the model.
- Segments.FindSegments: what is found on a page is given; the patterns are not part of the model.
- Naming: cleaning of names, legal forms and sorting of owners; the folder kind "unassigned", which has a fixed name.
- Naming.FitLengthFits: says nothing about a negative limit, for which a slice counts from the end.
- Transfer: copying of pages, jobs, hooks and audit records.
- Cost brake: circuit breaker, time budget, answers and prices of the providers are inputs; calls run one after another.
- Backoff: the lock of the limiter excludes other threads; the clock does not go back and a sleep lasts at least as long
  as asked.
- PdfTables.ColumnBounds: medians and the footer pattern are inputs, the smallest gap is not negative and no word ends
  before it begins.
- PdfTables.BuildCells: the joined text of a cell and the rounded average of its confidences.
- Masking: patterns are match lists with non-empty matches; the keyed hash of a number is left out.
- Iban: characters are ASCII.
- Web views, permissions, Google's client, OAuth, background jobs, text recognition, training, prompts, letters and
  spreadsheets: libraries or texts without a property to prove.
