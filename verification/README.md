# Deletion, restoration and retention in the community backend

The backend keeps three tables (users, boards, files), a directory of uploaded files and a clock.
Members and administrators delete things softly, bring them back within time windows, and hourly
jobs remove what is past its time. This project models those services as one state machine and
proves what every step, and every run, keeps.

## How it is laid out

- `Tables.dfy`: rows, tables, clock, replies. A NULL column is `Never` (a timestamp) or `Nobody` (a `deleted_by`).
- `FilesTable.dfy`, `BoardsTable.dfy`, `UsersTable.dfy`: the SQL statements as functions on the tables. `Sum` is the
  SQL `SUM(file_size)` over the serial keys.
- `FileServices.dfy`, `BoardServices.dfy`, `UserServices.dfy`, `AdminServices.dfy`: each service twice, as a function
  from state to answer and new state, and as a method that updates a `Database` object guard by guard and
  statement by statement, proved equal to the function.
- `Machine.dfy`: all requests and jobs as steps of one machine, and runs of it.
- `Columns.dfy`, `MemberAnswers.dfy`, `AdminAnswers.dfy`, `JobEffects.dfy`: for every step, when it is served, what it answers
  otherwise and all that it changes, in columns, seconds and bytes only.
- `Soundness.dfy`, `Quota.dfy`, `Totals.dfy`, `Disk.dfy`, `Bans.dfy`: invariants of every step and run.
- `Cascades.dfy`, `RoundTrips.dfy`: restores undo their deletes. `Retention.dfy`: what the jobs remove and spare.
- `Ownership.dfy`, `Projection.dfy`: what a request cannot reach, and that the cached totals steer nothing.
- `InterruptedSweep.dfy`: a sweep with requests served in between. `Orphans.dfy`: files without a row.
- `Uploads.dfy`: overlapping uploads. `Views.dfy`, `Popular.dfy`, `Paging.dfy`: the view markers, the top five with
  its cache, and the pages of the listings. `Sets.dfy`: a fact on finite sets.
- `Reachable.dfy`: the invariants together, from the empty database. `Witnesses.dfy`: states, each built by a run from
  the empty database, in which a promise fails.

## The main ideas

**Provenance.** A file tagged `BOARD_CASCADE` sits on a board that is still deleted, with the same
`deleted_at`; a file tagged `USER_CASCADE` belongs to an account that is still deleted, with the
same `deleted_at`. So the wider windows of the restore statements (30 and 90 days) always cover the
windows of the services (7 and 90 days), and no restore leaves a stale tag behind.

**Reserved bytes.** Board and account restores check no quota that could stop them, so "the active
bytes fit" is not inductive. What is inductive is a bound on the reserved bytes: active ones plus
those a cascade put away at most 90 days ago.

## Where the code and its comments differ

The model follows the code.

- The owner's bulk restore checks the files of 7 days and restores those of 30 (app/models/files.py:146 and 362).
- The administrator's single restore checks neither the quota nor whether the board is deleted.
- The administrator's delete of all files does not reset the board's total, though its log entry says 0.
- The administrator's board restore compares a NULL sum when no file is restorable; the request fails
  with a server error and changes nothing, so a board without files cannot be restored that way.
- Cascaded and member-deleted files are purged after 30 days, not 100, so the administrator's 90-day window is not met for them.
- The purge of a board removes its remaining files with it, which can include a file that an account restore would still bring back.
- A ban looks at no deletion, an unban of a deleted account answers success without effect, and an account restore clears the
  ban counter while leaving `ban_end_at`. The fourth ban of an account that its owner withdrew keeps the owner's deletion,
  so the owner can return within 7 days of it.
- An account whose owner chose an id that begins with `DELETED` and one more character is never anonymised: `_` is a wildcard of LIKE.
- The search orders by registration time alone, so its pages tile for certain only if no page boundary falls inside a tie; the
  two listings order by a unique key, and theirs always do.
- The owner's bulk restore reaches a deletion of exactly 30 days, which a sweep running at that instant takes.
- A sweep reads its paths once; an administrator's restore of one of those files, served before the row delete, leaves an active row
  without its file. Rows that the other purges and the immediate deletes remove leave their files on disk.

## Assumptions

One clock value per request, equal in Python and in the database. Each service call is atomic, except
that uploads are split between check and insert, and the sweep between its read, each unlink and the row delete.
Foreign keys hold, and deleting a board row deletes its file rows. Upload paths are fresh (uuid4). An
administrator's identity is checked before the administrator services. Password checks are an input.

## Model

| member | source | states |
|---|---|---|
| Soundness.StepSound | app/services/admin.py:290-346 | every request and job keeps all row invariants: keys, foreign keys, `deleted_at` null exactly when `deleted_by` is, tags per table, unique ids, ban columns, cascade provenance |
| Soundness.RunSound | app/core/scheduler.py:10-17 | the same after any run |
| Soundness.RejectionChangesNothing | app/services/files.py:66-116 | a refused request leaves every table, the disk and the clock as they were |
| Soundness.RestoreByIdIsByKey | app/models/user.py:224-233 | the account restore selects by login id, and touches exactly the one account |
| Soundness.SuspendProvenance | app/services/user.py:227-231 | withdrawal tags exactly the active files of the account, with the account's own deletion time, and breaks no other tag |
| Soundness.ReinstateUserProvenance | app/models/files.py:326-336 | if the account's age is within the window, no USER_CASCADE tag of it survives the restore |
| Soundness.SkewedReturnKeepsProvenanceIff | app/services/user.py:532-563 | with the database clock ahead by any skew, an account restore leaves a stale tag exactly if the account has cascaded files and the statement's window misses its deletion |
| Soundness.SkewSlack | app/services/admin.py:520-545 | a statement's window covers every age the service accepts exactly for a skew up to their difference: 23 days for the owner, none for the administrator |
| Soundness.DeleteBoardProvenance | app/services/boards.py:366-368 | a board delete tags exactly the active files of the board, with the board's own deletion time, and breaks no other tag |
| Soundness.ReinstateBoardProvenance | app/models/files.py:369-380 | if the board's age is within the window, no BOARD_CASCADE tag of it survives the restore |
| Soundness.HardDeleteUserProvenance | app/services/admin.py:318-332 | the immediate delete moves the account's deletion time and leaves no cascade tag behind that names it |
| Soundness.UserStepKeepsProvenance | app/services/user.py:217-244 | member account requests keep provenance |
| Soundness.FileStepKeepsProvenance | app/services/files.py:58-413 | file requests keep provenance |
| Soundness.SanctionStepKeepsProvenance | app/services/admin.py:184-501 | administrator bans and deletes keep provenance |
| Soundness.RecoveryStepKeepsProvenance | app/services/admin.py:505-730 | administrator restores keep provenance |
| FilesTable.SumAdd | app/models/files.py:163-174 | sums split along a split of the selected rows |
| FilesTable.SumPoint | app/models/files.py:163-174 | changing one row changes the sum by what that row adds |
| Quota.StepKeepsQuotaIff | app/services/files.py:105-109 | from a sound state within the quota, a served request keeps it exactly when `Fits`: always, but for the owner's bulk restore and the administrator's single restore, where the extra bytes must fit |
| Quota.StepReserved | app/services/boards.py:435-445 | a step that fits leaves every board with no more reserved bytes than before, or within the quota, even from a state over it |
| Quota.RunKeepsQuota | app/core/config.py:17-18 | every run whose served steps fit stays within the quota |
| Quota.ExceedsNeverFires | app/models/files.py:193-208 | within the quota, the check for exceeding boards never refuses an account restore whose age is accepted |
| Quota.ReservedIsActive | app/services/files.py:93-105 | on a board in use of an account in use, the reserved bytes are the active ones, so the upload's check sees all of them |
| Quota.UserBulkReserved | app/models/files.py:354-365 | what the owner's bulk restore leaves reserved: the active bytes and 30 days of own deletions |
| Quota.UserBulkRestoreBound | app/services/files.py:372-397 | a served owner's bulk restore passes the quota by at most the owner's files aged over 7 and up to 30 days, and exactly when they do not fit |
| Quota.AdminBulkRestoreBound | app/services/admin.py:690-714 | a served administrator's bulk restore stays within the quota, restores every file of at most 90 days and leaves none |
| Quota.FileStepReserved | app/services/files.py:300-304 | uploads and restores by the owner leave no board over the quota, other than through the bulk restore |
| Quota.RecoveryStepReserved | app/services/admin.py:589-703 | the same for restores by an administrator, other than the single restore, whose growth is exactly the file |
| Totals.StepKeepsTotals | app/models/boards.py:372-410 | after every step a board in use has the exact total or no active file |
| Totals.StepKeepsExactTotals | app/models/boards.py:372-410 | every step but the administrator's delete of all files keeps all totals on show exact |
| Totals.AdminDeleteAllKeepsTotalsIff | app/services/admin.py:479-484 | that delete keeps them exact exactly when the board is deleted or its total was zero |
| Totals.RunKeepsTotals | app/services/files.py:188-195 | the claim on totals over every run |
| Totals.RepairedRunKeepsExactTotals | app/services/admin.py:479-484 | with the missing reset added to the administrator's delete of all files, every total on show is exact in every state of every run |
| Totals.AccountDeleteReachesEveryBoard | app/services/admin.py:290-346 | a served withdrawal, or administrator's delete with any of the three options, leaves no active file on any board of the account and total 0 on all on show, and changes nothing of anybody else; only the immediate one removes file rows, all of them |
| Totals.SuspendEmpties | app/models/files.py:233-244 | the same for the transaction shared by the withdrawal and the two soft deletes, which removes no row |
| Totals.ImmediateDeleteEmpties | app/services/admin.py:317-332 | the same for the immediate delete |
| Totals.AccountRestoreReachesEveryBoard | app/models/boards.py:397-410 | a served account restore, by the owner or an administrator, recomputes every board of the account, deleted ones too, leaves no USER_CASCADE file, and changes nothing of anybody else |
| Projection.StepBlind | app/models/files.py:163-174 | states that differ only in totals answer every request alike and still differ only in totals |
| Projection.RunBlind | app/services/admin.py:690-703 | the same for the answers and the end of any run |
| Disk.StepKeepsDisk | app/services/files.py:127-136 | with fresh upload paths, every step leaves a file on disk behind every row |
| Disk.SweepKeepsDisk | app/services/files.py:422-436 | the sweep keeps that although the clock advances between unlinking and row delete, and some unlinks fail |
| Disk.RunKeepsDisk | app/services/files.py:422-436 | the same over runs |
| InterruptedSweep.InterruptedSweepKeepsDisk | app/services/files.py:424-436 | a sweep leaves every row its file whatever is served between the read of the paths and the delete of the rows, before, between or after the unlinks, restores and a second sweep included, as long as each request spares the rows whose paths were read and are not stuck |
| InterruptedSweep.InterruptedSweepKeepsDiskIff | app/services/files.py:424-436 | one more served request, anywhere between the read and the row delete, leaves every row its file exactly if it restores no row whose path was read and is not stuck |
| InterruptedSweep.StepKeepsDoomedDueIff | app/services/admin.py:505-730 | the same for one step from any state of the sweep; the guard asks for the age of the account or board deletion, for the file's path, or for rows of the board in the window |
| InterruptedSweep.RestoreInTheGapDanglesIff | app/services/admin.py:644-650 | an administrator's single restore anywhere in an otherwise quiet sweep leaves an active row without its file exactly when the file was due and could be unlinked |
| InterruptedSweep.StepKeepsDoomed | app/models/files.py:248-260 | only an administrator's restores and the owner's bulk restore can touch a row whose path a sweep has read |
| InterruptedSweep.RestoreKeepsDoomedIff | app/models/files.py:340-380 | each of those, once served, leaves such rows alone exactly under its guard |
| Orphans.StepOrphansIff | app/services/user.py:254-258 | after any request or job a file has no row exactly if it had none before, or its row went by the account or board purge, an immediate delete, or a sweep that could not unlink it or read its paths before the row came due |
| Orphans.LateInsertOrphansIff | app/services/files.py:127-136 | a late insert leaves its file without a row exactly if the board is gone |
| Retention.PurgeDueIffRetentionOver | app/models/files.py:248-260 | the purge predicate covers every deleted row: 100 days if an administrator deleted it, else 30 |
| Retention.RetentionExact | app/models/files.py:264-276 | right after a job no deleted row is past its time, and none went before it, but with its board |
| Retention.JobLimits | app/models/boards.py:301-309 | jobs spare boards deleted under 100 days ago, accounts under 30, and change no active sum of a board in use |
| Retention.JobSparesOwnerRestore | app/services/files.py:310-397 | a file that any of the owner's restores, the bulk one included, would bring back at the time a job ends survives the job, however long it took, and the restore still brings it back, exactly unless the board purge takes its board, or a job that deletes rows ends when a file of the bulk restore is 30 days old |
| Retention.BulkRestoreAfterJob | app/services/files.py:372-397 | a job never turns a bulk restore by the owner that would be served when it ends into a refused one |
| Retention.RestoreAccountAfterJob | app/services/user.py:545-563 | a job never turns an account restore that would be served when it ends into a refused one |
| Retention.SweepSparesAdminRestorableIff | app/services/admin.py:638-642 | of the files an administrator could restore when a sweep ends, it keeps those an administrator deleted and those under 30 days |
| Retention.BoardPurgeExact | app/models/boards.py:301-309 | a file goes with the board purge exactly if its own time or its board's is over, all other rows are unchanged, and before its own time goes no file of a board in use and none that the cascade took, only one active or deleted since its board was |
| Retention.AnonymiseExact | app/models/user.py:182-199 | the anonymiser replaces exactly the ids of accounts past their time, except chosen ids that match the LIKE pattern |
| Retention.EmptyBoardRestoreIff | app/services/admin.py:589-595 | a board its owner deleted comes back at the owner's request within 7 days; at an administrator's it fails on the NULL sum exactly if it was deleted without active files and without files deleted in the 90 days before |
| Cascades.NestedCascadesUndo | app/services/user.py:556-563 | delete a board, withdraw, return, restore the board within 7 days and with any jobs between: all served; on every board, a file active at the start is there and active exactly unless a board purge among the jobs took its board, and a deleted one is never active |
| Cascades.JobTracks | app/core/scheduler.py:12-15 | a job disturbs no deletion younger than 7 days |
| Cascades.RestoreAccountTracks | app/services/user.py:532-563 | the return of the account undoes the withdrawal and leaves the board's own deletion |
| Cascades.RestoreBoardTracks | app/services/boards.py:423-445 | the restore of the board undoes its deletion and resurrects nothing deleted before |
| RoundTrips.FileRoundTrip | app/services/files.py:188-325 | within the quota, delete then restore of a file within 7 days gives back all rows, and the exact total |
| RoundTrips.AllFilesRoundTrip | app/services/files.py:380-397 | all files deleted at once come back at once exactly when they and the owner's deletions of 7 days have a byte between them and fit; with them come the owner's other deletions of 30 days, so the rows are those of the start exactly if there are none |
| RoundTrips.BoardRoundTrip | app/services/boards.py:366-445 | delete then restore of a board within 7 days gives back all rows, and the exact total |
| RoundTrips.AccountRoundTrip | app/services/user.py:227-563 | withdraw then return within 7 days is served and gives back all rows; the account's row exactly if it was under no ban |
| RoundTrips.AdminFileRoundTrip | app/services/admin.py:419-650 | an administrator's scheduled delete of a file is undone by the restore within 90 days |
| RoundTrips.AdminBoardRoundTrip | app/services/admin.py:355-604 | an administrator's board delete is undone within 90 days, if some file is restorable and all such files fit; else refused |
| Ownership.MemberRequestsStayHome | app/services/files.py:73-78 | a member's request changes no row of another member, creates only under its own account, and is served only for an account in use |
| Ownership.MembersCannotOverrule | app/services/files.py:316-320 | no member's request undoes or overwrites a deletion by an administrator, nor brings back a file that went by cascade with a board or account an administrator deleted |
| Ownership.MemberRunCannotOverrule | app/services/boards.py:423-433 | the same for every run of members' requests |
| Bans.StepCounts | app/models/admin.py:80-121 | only bans and pardons of an account move its counter; a ban is the sanction the schedule has for it |
| Bans.LedgerFollowsSchedule | app/services/admin.py:196-247 | over every run the sanctions since the last pardon, read off status, ban end and deletion columns, are 1, 3, 5 days, then deletion, never a fifth |
| Bans.FourthBan | app/services/admin.py:196-217 | the fourth ban deletes the account, keeps an earlier deletion time, and touches no board and no file |
| Bans.FourthBanRoundTrip | app/services/admin.py:196-217 | within the quota, the fourth ban of an account in use leaves its files and boards in use, and an administrator's restore within 90 days undoes it but for the counter and ban end |
| Bans.FourthBanUndoneIff | app/services/user.py:532-563 | within the quota, the owner undoes the fourth ban by returning exactly if the account was withdrawn by its owner before it, at most 7 days before the return |
| Bans.DeletedBannedIff | app/models/admin.py:82-89 | after any step, a deleted account shows BANNED exactly if the step banned it below the fourth time, or it showed it before and was not restored, deleted for good, or banned the fourth time |
| Bans.UnbanTakesEffectIff | app/services/admin.py:263-272 | a served unban changes something exactly if the account is in use |
| Bans.RunKeepsBanEnds | app/models/admin.py:80-121 | over every run a counter of 1 to 3 comes with the end of the last ban, and a counter of 4 with none |
| Bans.StaleEndIff | app/models/user.py:224-233 | a ban end beside a counter of 0 comes about exactly by an account restore under a counted ban, and stays exactly until the next ban |
| Uploads.ConcurrentUploadBound | app/services/files.py:93-136 | with at most n uploads in flight on a board, its active and in-flight bytes stay within the quota plus n-1 maximal files if no request for files restores some of that board meanwhile, plus n if what is so restored fits; refused requests and other boards count for nothing; n = 1 gives the quota |
| Uploads.NextBounded | app/services/files.py:105-136 | each event keeps that bound |
| Uploads.BoundIsReached | app/services/files.py:105-136 | the bound with n-1 is attained for every n |
| Uploads.BoundWithRestoreIsReached | app/services/files.py:300-304 | the bound with n is attained for every n, by an owner's restore served while the uploads are under way |
| Uploads.LandKeepsTotals | app/services/files.py:131-136 | a late insert keeps the claim on totals, also if the board was deleted meanwhile |
| Uploads.RunEventsSound | app/services/files.py:93-136 | under any interleaving with uploads the row invariants and the claim on totals hold |
| Uploads.RunEventsKeepsDisk | app/services/files.py:127-136 | under any interleaving, sweeps included, every row and every upload under way has a file of its own on disk |
| Views.TrackerIsGreedy | app/services/boards.py:99-116 | interleaved with all other viewers, the recorded times of one viewer and board are the greedy choice |
| Views.RecordedViewsAreBest | app/services/boards.py:105-116 | recorded views are 300 seconds apart, cover every request, and no larger choice is 300 seconds apart |
| Views.GreedyIsLargest | app/services/boards.py:105-116 | no 300-separated choice of request times is larger than the greedy one |
| Views.ViewTracker.View | app/services/boards.py:86-128 | one request: 404 without a trace, or recorded unless the marker is alive |
| Popular.Top5Size | app/models/boards.py:200-216 | the ranking gives five boards, or all candidates if fewer |
| Popular.Top5Separates | app/models/boards.py:206-213 | the five are undeleted boards, no notices, registered within 604800 or 2592000 seconds; every such board left out has fewer views than every board let in, or as many and the smaller index |
| Popular.LongerFiveInWeek | app/services/boards.py:508-516 | a board of the all-time or monthly five that is in the week is in the weekly five |
| Popular.AnswersAreRecent | app/services/boards.py:520-542 | every answer is the five for its period at some request less than 600 seconds ago, and empty only if the ranking is |
| Popular.PopularService.GetPopular | app/services/boards.py:504-542 | the in-place service answers from the cache while alive, else ranks and caches, 404 exactly when empty; what it answers is pinned by `Popular.Top5Separates` and `Popular.CacheHolds` |
| Paging.PagesTile | app/services/boards.py:194-201 | pages 1 to total_pages, each from its own query, make up the listing with no loss and no repeat, by author and then the larger index first |
| Paging.ListingIsUnique | app/models/boards.py:66-67 | (user id, board index) is a total order, so every run of the query gives the same sequence |
| Paging.PageNonEmptyIff | app/services/boards.py:149-157 | a page is non-empty exactly if its number is at most the ceiling of total by limit |
| Paging.SearchPagesTileIff | app/services/boards.py:462-500 | pages 1 to total_pages of a search, each from its own run of the query, list every board exactly once for all choices of runs if and only if the registration times differ across every page boundary |
| Paging.TiedBoundaryRepeats | app/models/boards.py:187-194 | at a boundary inside a tie, two runs exist with which the pages show one board twice and another not at all |
| Paging.NeighboursSwapIff | app/models/boards.py:192 | two neighbours of a result may be swapped exactly if registered at the same instant |
| Reachable.EveryReachableState | app/core/scheduler.py:10-17 | all invariants together in every state reached from the empty database |
| Witnesses.UserBulkRestorePassesQuota | app/models/files.py:354-365 | a reachable state, within the quota so far, in which the owner's bulk restore passes it |
| Witnesses.AdminRestorePassesQuota | app/services/admin.py:622-664 | a reachable full board on which the administrator's single restore passes the quota |
| Witnesses.AdminDeleteAllLeavesStaleTotal | app/services/admin.py:479-484 | a reachable state in which that delete leaves a wrong total |
| Witnesses.BoardPurgeTakesRestorableFile | app/services/boards.py:386-390 | a reachable state in which the board purge takes a file that the owner's return would bring back |
| Witnesses.NestedCascadesLoseFile | app/services/boards.py:386-390 | a reachable state from which the nested deletions lose an active file of another board to the board purge |
| Witnesses.FourthBanCanBeUndone | app/services/admin.py:196-217 | a reachable account, withdrawn under three bans, whose fourth ban is answered success and undone by its owner |
| Witnesses.DeletedAccountBanned | app/models/admin.py:82-89 | a reachable deleted account that shows BANNED |
| Witnesses.UnbanWithoutEffect | app/services/admin.py:263-272 | a reachable state in which an unban is answered success and changes nothing |
| Witnesses.StaleEndAfterReturn | app/models/user.py:224-233 | a reachable account in use with a ban end beside a counter of 0, which an unban refuses to clear |
| Witnesses.EmptyBoardGone | app/services/admin.py:589-595 | a reachable deleted board that its owner can restore and an administrator cannot |
| Witnesses.SweepTakesAdminRestorable | app/models/files.py:248-260 | a reachable state in which the sweep takes a file an administrator could restore |
| Witnesses.SweepTakesBulkRestorable | app/models/files.py:354-365 | a reachable state in which the sweep takes a file that the owner's bulk restore would bring back |
| Witnesses.RestoreInTheGapDangles | app/services/files.py:424-436 | a reachable state from which an administrator's restore, before or after the unlink of a running sweep, leaves an active row without its file |
| Witnesses.PurgeLeavesOrphan | app/services/user.py:254-258 | a reachable state in which the account purge leaves a file without its row |
| Witnesses.AnonymiserSkips | app/models/user.py:182-199 | a reachable account past its time whose chosen id the anonymiser leaves |
| Paging.TiedSearch | app/models/boards.py:192 | two boards of one instant, one to a page: the search can show the first on both pages |
| Reachable.ReachedIsSound | app/core/scheduler.py:10-17 | all invariants hold in every state that some run from the empty database reaches with fresh paths and requests that fit |
| Columns.SumsAreSizes | app/models/files.py:125-210 | the sums of the statements are the sizes of the files they are meant to select, summed on the columns |
| MemberAnswers.RegisterAnswers | app/services/user.py:66-122 | registration: 403 before verification, 409 for a taken id or e-mail, else one new row and nothing else |
| MemberAnswers.RenameAnswers | app/services/user.py:396-426 | change of login id: 401 without account or password, 409 for a taken id, else that column alone |
| MemberAnswers.WithdrawAnswers | app/services/user.py:217-244 | withdrawal: served for an account in use with its password; exactly its row, its active files and its totals on show change, as written out |
| MemberAnswers.RestoreAccountAnswers | app/services/user.py:509-575 | account restore: the order of its refusals, its 604800 seconds, tag and 25 MB check; exactly the files cascaded within 2592000 seconds come back |
| MemberAnswers.CreateBoardAnswers | app/services/boards.py:60-82 | board creation: one new empty board of the caller and nothing else |
| MemberAnswers.DeleteBoardAnswers | app/services/boards.py:338-382 | board delete by its owner: the order of its refusals; exactly the board's deletion columns and its active files change |
| MemberAnswers.RestoreBoardAnswers | app/services/boards.py:394-458 | board restore by its owner: refused past 604800 seconds, for another's delete, without account or password; exactly the files cascaded within 2592000 seconds come back, and the total is recomputed |
| MemberAnswers.UploadAnswers | app/services/files.py:58-149 | upload: the order of its refusals, among them type, 26214400 bytes of the board and 5242880 of the file; exactly one row, one path and the total are new |
| MemberAnswers.DeleteFileAnswers | app/services/files.py:153-208 | delete of one file by its owner: the order of its refusals; exactly that row and the total change |
| MemberAnswers.DeleteAllFilesAnswers | app/services/files.py:212-255 | delete of all files by the owner: exactly the active files of the board change, and its total is 0 |
| MemberAnswers.RestoreFileAnswers | app/services/files.py:259-338 | restore of one file by its owner: served if and only if password, account, board, owner, tag, 604800 seconds and 26214400 bytes allow it; exactly that row is cleared |
| MemberAnswers.RestoreAllFilesAnswers | app/services/files.py:342-413 | bulk restore by the owner: decided by the bytes of 604800 seconds, while exactly the owner's deletions of 2592000 seconds come back |
| AdminAnswers.BanAnswers | app/services/admin.py:184-247 | ban: 86400, 259200, 432000 seconds, then the deletion of an account still in use, then declined; no other row changes |
| AdminAnswers.UnbanAnswers | app/services/admin.py:251-286 | unban: 404, 400 for a counter of 0, else the row of an account in use is cleared, and nothing of a deleted one |
| AdminAnswers.DeleteUserAnswers | app/services/admin.py:290-346 | scheduled and retained account delete: served for an account in use; its own tag each, exactly its active files and totals on show change |
| AdminAnswers.DeleteUserNowAnswers | app/services/admin.py:317-332 | immediate account delete: the row stays under an anonymous id, all its file rows go, nothing else changes |
| AdminAnswers.DeleteBoardAnswers | app/services/admin.py:355-381 | scheduled and retained board delete: served for a board in use; its own tag each, exactly its row and active files change |
| AdminAnswers.DeleteBoardNowAnswers | app/services/admin.py:382-391 | immediate board delete: the board's row and all file rows on it are gone, every other row is unchanged |
| AdminAnswers.DeleteFileAnswers | app/services/admin.py:419-430 | scheduled file delete: exactly that row is tagged ADMIN_SCHEDULED at that instant, and the total recomputed |
| AdminAnswers.DeleteFileNowAnswers | app/services/admin.py:431-445 | immediate file delete: exactly that row goes, and the total is recomputed |
| AdminAnswers.DeleteAllFilesAnswers | app/services/admin.py:461-501 | delete of all files: exactly the active ones are tagged ADMIN_SCHEDULED, or all rows go; no board changes |
| AdminAnswers.RestoreUserAnswers | app/services/admin.py:505-562 | account restore by an administrator: whoever deleted it, within 7776000 seconds and the 25 MB check; exactly the files cascaded in that time come back |
| AdminAnswers.RestoreBoardAnswers | app/services/admin.py:566-618 | board restore by an administrator: refused past 7776000 seconds, 500 without a file deleted in that time, 413 if those exceed 25 MB; exactly the cascaded ones come back |
| AdminAnswers.RestoreFileAnswers | app/services/admin.py:622-664 | restore of one file by an administrator: refused past 7776000 seconds only; exactly that row is cleared and the total recomputed |
| AdminAnswers.RestoreAllFilesAnswers | app/services/admin.py:668-730 | bulk restore by an administrator: decided by the bytes of 7776000 seconds, and exactly those files come back |
| AdminAnswers.ScheduledFileStaysDeleted | app/services/admin.py:426 | a file that an administrator's scheduled or retained delete took, singly, with all files, with its board or with its account, is brought back by no run of members' requests |
| JobEffects.AnonymiseEffect | app/models/user.py:182-199 | the anonymiser changes exactly the ids of accounts past 2592000 or 8640000 seconds that do not look anonymised |
| JobEffects.PurgeUsersEffect | app/services/user.py:254-258 | the account purge does that and removes exactly the files whose time is over |
| JobEffects.PurgeBoardsEffect | app/models/boards.py:301-309 | a board goes if and only if it is tagged ADMIN_SCHEDULED and was deleted 8640000 seconds ago or longer; with it its files; all other rows unchanged |
| JobEffects.SweepEffect | app/services/files.py:422-436 | the sweep removes exactly the rows over at its end, and from disk exactly the paths over at its start that are not stuck |
| JobEffects.KeptBoardSurvives | app/services/admin.py:370-381 | a board that an administrator retained, that its owner deleted, or that is in use is unchanged by every run of jobs |
| JobEffects.ScheduledBoardGoesIff | app/services/admin.py:355-369 | a board scheduled for deletion is gone after a purge exactly if 8640000 seconds have passed |
| Uploads.SplitUploadIsUpload | app/services/files.py:93-136 | with nothing in between, check and insert make up the upload |
| InterruptedSweep.QuietSweepIsSweep | app/services/files.py:422-436 | with nothing served in between, read, unlinks and row delete make up the sweep |
| Popular.CacheHolds | app/services/boards.py:520-542 | a fresh non-empty ranking answers every request for its period for 600 seconds, and the first request after that is ranked anew |
| Paging.SearchNewestFirst | app/models/boards.py:192 | tied or not, the pages of a search show later registrations first throughout |
| FileServices.UploadFilesServices | app/services/files.py:58-149 | the in-place service answers and changes the tables exactly as the machine's upload, for which `Quota.FileStepReserved`, `Totals.StepKeepsTotals` and `Disk.StepKeepsDisk` are proved; a refused upload leaves neither row nor file; answers and changes as in `MemberAnswers.UploadAnswers` |
| FileServices.DeleteFilesServices | app/services/files.py:153-208 | the in-place service realises the machine's delete of one file, which `RoundTrips.FileRoundTrip` shows to be undone by the restore within 7 days; answers and changes as in `MemberAnswers.DeleteFileAnswers` |
| FileServices.DeleteAllServices | app/services/files.py:212-255 | the in-place service realises the machine's delete of a board's files, whose total 0 `Totals.StepKeepsExactTotals` shows to be right, and which `RoundTrips.AllFilesRoundTrip` undoes; answers and changes as in `MemberAnswers.DeleteAllFilesAnswers` |
| FileServices.RestoreFileServices | app/services/files.py:259-338 | the in-place service realises the machine's single restore, which is the inverse in `RoundTrips.FileRoundTrip` and brings back nothing an administrator deleted (`Ownership.MembersCannotOverrule`); answers and changes as in `MemberAnswers.RestoreFileAnswers` |
| FileServices.RestoreAllFileServices | app/services/files.py:342-413 | the in-place service realises the machine's bulk restore with its two different windows, whose excess over the quota is `Quota.UserBulkRestoreBound`; answers and changes as in `MemberAnswers.RestoreAllFilesAnswers` |
| FileServices.DeleteFilesPermanServices | app/services/files.py:422-436 | whatever order the loop takes the due paths in, it ends with the disk less exactly the due paths that could be unlinked, and the rows due by then gone; `Disk.SweepKeepsDisk` follows from that; answers and changes as in `JobEffects.SweepEffect` |
| BoardServices.CreateBoardsServices | app/services/boards.py:60-82 | the in-place service realises the machine's board creation: a fresh key, an empty board of the caller (`Ownership.MemberRequestsStayHome`); answers and changes as in `MemberAnswers.CreateBoardAnswers` |
| BoardServices.BoardsDeleteServices | app/services/boards.py:338-382 | the in-place service realises the machine's board delete, for which `Soundness.DeleteBoardProvenance` and `RoundTrips.BoardRoundTrip` are proved; answers and changes as in `MemberAnswers.DeleteBoardAnswers` |
| BoardServices.RestoreBoardServices | app/services/boards.py:394-458 | the in-place service realises the machine's board restore: no quota check, yet within the quota by `Quota.StepReserved`, and the inverse in `RoundTrips.BoardRoundTrip`; answers and changes as in `MemberAnswers.RestoreBoardAnswers` |
| BoardServices.DeleteBoardsPerman | app/services/boards.py:386-390 | the in-place job realises the machine's board purge, whose effect is `Retention.BoardPurgeExact`; answers and changes as in `JobEffects.PurgeBoardsEffect` |
| UserServices.RegisterUserServices | app/services/user.py:66-122 | the in-place service realises the machine's registration, with 403 before verification and 409 for a taken id or e-mail; ids stay unique (`Soundness.StepSound`); answers and changes as in `MemberAnswers.RegisterAnswers` |
| UserServices.UserIdModifyServices | app/services/user.py:396-426 | the in-place service realises the machine's change of login id; ids stay unique (`Soundness.StepSound`); answers and changes as in `MemberAnswers.RenameAnswers` |
| UserServices.UserWithdrawServices | app/services/user.py:217-244 | the in-place service realises the machine's withdrawal, which empties every board of the account and no other (`Totals.AccountDeleteReachesEveryBoard`); answers and changes as in `MemberAnswers.WithdrawAnswers` |
| UserServices.RestoreUserServices | app/services/user.py:509-575 | the in-place service realises the machine's account restore, the inverse in `RoundTrips.AccountRoundTrip`, never refused for exceeding boards within the quota (`Quota.ExceedsNeverFires`); answers and changes as in `MemberAnswers.RestoreAccountAnswers` |
| UserServices.AnonymizeUser | app/services/user.py:248-250 | the in-place job realises the machine's anonymiser, whose effect is `Retention.AnonymiseExact`; answers and changes as in `JobEffects.AnonymiseEffect` |
| UserServices.DeleteUserPerman | app/services/user.py:254-258 | the in-place job realises the machine's two account jobs in their order; what they spare is `Retention.JobLimits`; answers and changes as in `JobEffects.PurgeUsersEffect` |
| AdminServices.AdminUserBanServices | app/services/admin.py:184-247 | the in-place service realises the machine's ban, which follows the schedule of `Bans.LedgerFollowsSchedule`, and whose fourth step the owner can undo only as in `Bans.FourthBanUndoneIff`; answers and changes as in `AdminAnswers.BanAnswers` |
| AdminServices.AdminUserUnbanServices | app/services/admin.py:251-286 | the in-place service realises the machine's unban, whose answer and effect differ as in `Bans.UnbanTakesEffectIff`; answers and changes as in `AdminAnswers.UnbanAnswers` |
| AdminServices.AdminDeleteUserServices | app/services/admin.py:290-346 | the in-place service realises the machine's three account deletes, for which `Totals.AccountDeleteReachesEveryBoard` and `Soundness.HardDeleteUserProvenance` are proved; answers and changes as in `AdminAnswers.DeleteUserAnswers` |
| AdminServices.AdminDeleteBoardsServices | app/services/admin.py:350-404 | the in-place service realises the machine's three board deletes, undone as in `RoundTrips.AdminBoardRoundTrip`; answers and changes as in `AdminAnswers.DeleteBoardAnswers` and `AdminAnswers.DeleteBoardNowAnswers` |
| AdminServices.AdminDeleteOneFileServices | app/services/admin.py:408-457 | the in-place service realises the machine's two file deletes, the scheduled one undone as in `RoundTrips.AdminFileRoundTrip`; answers and changes as in `AdminAnswers.DeleteFileAnswers` and `AdminAnswers.ScheduledFileStaysDeleted` |
| AdminServices.AdminDeleteAllBoardFilesServices | app/services/admin.py:461-501 | the in-place service realises the machine's delete of all files without touching the total, right only as in `Totals.AdminDeleteAllKeepsTotalsIff`; answers and changes as in `AdminAnswers.DeleteAllFilesAnswers` |
| AdminServices.AdminRestoreUserServices | app/services/admin.py:505-562 | the in-place service realises the machine's account restore by an administrator, which leaves no USER_CASCADE file of the account (`Totals.AccountRestoreReachesEveryBoard`); answers and changes as in `AdminAnswers.RestoreUserAnswers` |
| AdminServices.AdminRestoreBoardServices | app/services/admin.py:566-618 | the in-place service realises the machine's board restore by an administrator, which fails on the NULL sum without a change (`Retention.EmptyBoardRestoreIff`) and else undoes as in `RoundTrips.AdminBoardRoundTrip`; answers and changes as in `AdminAnswers.RestoreBoardAnswers` |
| AdminServices.AdminRestoreFileServices | app/services/admin.py:622-664 | the in-place service realises the machine's unchecked single restore, whose growth is exactly the file (`Quota.RecoveryStepReserved`); answers and changes as in `AdminAnswers.RestoreFileAnswers` |
| AdminServices.AdminRestoreAllFilesServices | app/services/admin.py:668-730 | the in-place service realises the machine's bulk restore by an administrator, whose one window gives `Quota.AdminBulkRestoreBound`; answers and changes as in `AdminAnswers.RestoreAllFilesAnswers` |

## Left out

- Tokens, password hashing, e-mail and verification codes: foreign calls; their verdict is an input of each request.
- Uniqueness of e-mail addresses: the change of address does not await its duplicate check (app/services/user.py:473).
- Audit log rows, `update_date`, titles, contents and file names: written, never read by a decision here.
- Integer widths: keys and sizes are unbounded.
- Time zones: one clock; a skew between Python and the database is treated for the account restore only.
- Interleavings other than the split upload and the split sweep: each service call is one step.
- A chosen login id spelled like an anonymised one, for which the anonymiser would hit the unique constraint: the two kinds of id are kept apart.
- The listings' grouping of rows by displayed author and the float division under `math.ceil`: an integer ceiling is used.
- Which key a viewer gets, and the view counter, which no service updates: inputs of the view and ranking models.
- Uploads.ConcurrentUploadBound: asks, like the quota over runs, that the owner's bulk and the administrator's single restores fit where they are served on that board.
