/** States that the service can reach, and in which it does what its comments do not say. */
module Witnesses {
  import opened Tables
  import opened FilesTable
  import opened Machine
  import opened Soundness
  import opened Quota
  import opened Totals
  import opened Disk
  import opened Retention
  import opened Cascades
  import opened Reachable
  import opened Bans
  import opened InterruptedSweep
  import opened Orphans
  import AdminServices
  import BoardServices
  import FileServices
  import RoundTrips
  import UserServices

  // ---------- one account, one board, and files on it ----------

  /** Account 1 has board 1 in use, whatever its total, and there is nothing else. */
  predicate OneBoard(s: State, files: Files, next: nat, disk: set<string>, now: int) {
    && s.users == map[1 := UserRow(Chosen("owner1"), Active, 0, Never, Never, Nobody)] && s.nextUser == 2
    && s.boards.Keys == {1} && s.boards[1] == BoardRow(1, s.boards[1].total, Never, Nobody) && s.nextBoard == 2
    && s.files == files && s.nextFile == next && s.disk == disk && s.now == now
  }

  lemma BoardOpened() returns (s: State)
    ensures Reached(s) && OneBoard(s, map[], 1, {}, 0)
  {
    s := Init(0);
    ReachedStart(0);
    ReachedNext(s, OfUser(Register(true, false, "owner1")));
    s := Step(s, OfUser(Register(true, false, "owner1"))).state;
    ReachedNext(s, OfBoard(CreateBoard(1)));
    s := Step(s, OfBoard(CreateBoard(1))).state;
  }

  lemma Uploaded(s: State, files: Files, next: nat, disk: set<string>, now: int, size: nat, path: string) returns (t: State)
    requires Reached(s) && OneBoard(s, files, next, disk, now)
    requires path !in disk && size <= FILE_MAX_SIZE && ActiveBytes(s, 1) + size <= FILE_TOTAL_MAX_SIZE
    ensures Reached(t) && OneBoard(t, files[next := FileRow(1, size, path, Never, Nobody)], next + 1, disk + {path}, now)
    ensures ActiveBytes(t, 1) == ActiveBytes(s, 1) + size
  {
    var op := OfFile(Upload(1, 1, size, true, path));
    ReachedIsSound(s);
    assert FreshPath(s, op) by {
      forall i | i in s.files ensures s.files[i].path != path {
      }
    }
    ReachedNext(s, op);
    UploadServed(s, size, path);
    t := Step(s, op).state;
  }

  lemma UploadServed(s: State, size: nat, path: string)
    requires FilesSound(s.files, s.boards, s.nextFile)
    requires LoggedIn(s, 1) && BoardActive(s, 1) && s.boards[1].owner == 1
    requires size <= FILE_MAX_SIZE && ActiveBytes(s, 1) + size <= FILE_TOTAL_MAX_SIZE
    ensures var o := FileServices.Upload(s, 1, 1, size, true, path);
            && o.reply == Done
            && o.state == s.(boards := o.state.boards, disk := s.disk + {path}, nextFile := s.nextFile + 1,
                             files := s.files[s.nextFile := FileRow(1, size, path, Never, Nobody)])
            && o.state.boards == s.boards[1 := s.boards[1].(total := ActiveBytes(o.state, 1))]
            && ActiveBytes(o.state, 1) == ActiveBytes(s, 1) + size
  {
    var t := FileServices.Upload(s, 1, 1, size, true, path).state;
    InsertAdds(s, 1, size, path, ActiveOn(1));
    assert ActiveBytes(t, 1) == ActiveBytes(FileServices.InsertFile(s, 1, size, path), 1);
  }

  lemma OwnerDeletes(s: State, files: Files, next: nat, disk: set<string>, now: int, i: nat) returns (t: State)
    requires Reached(s) && OneBoard(s, files, next, disk, now)
    requires i in files && files[i].board == 1 && files[i].deletedAt.Never?
    ensures Reached(t) && OneBoard(t, files[i := Mark(files[i], ByUser, now)], next, disk, now)
    ensures ActiveBytes(t, 1) == ActiveBytes(s, 1) - files[i].size
  {
    var op := OfFile(DeleteFile(1, true, i));
    ReachedIsSound(s);
    assert FileSound(files[i], i, s.boards, next);
    ReachedNext(s, op);
    t := Step(s, op).state;
    RoundTrips.DeletedBytes(s, i, ByUser);
    assert ActiveBytes(t, 1) == ActiveBytes(s.(files := SoftDeleteOneFile(files, ByUser, i, now)), 1);
  }

  lemma Ticked(s: State, seconds: nat) returns (t: State)
    requires Reached(s)
    ensures Reached(t) && t == s.(now := s.now + seconds)
  {
    ReachedNext(s, OfClock(Tick(seconds)));
    t := Step(s, OfClock(Tick(seconds))).state;
  }

  /** A path for each file. */
  function Name(i: nat): string {
    seq(i, _ => 'f')
  }

  function Maximal(i: nat, at: Stamp, tag: Tag): FileRow {
    FileRow(1, FILE_MAX_SIZE, Name(i), at, tag)
  }

  function FilesUpTo(k: nat, at: Stamp, tag: Tag): Files {
    map i: nat | 1 <= i <= k :: Maximal(i, at, tag)
  }

  function NamesUpTo(k: nat): set<string> {
    set i: nat | 1 <= i <= k :: Name(i)
  }

  lemma NamesGrow(k: nat)
    ensures NamesUpTo(k + 1) == NamesUpTo(k) + {Name(k + 1)} && Name(k + 1) !in NamesUpTo(k)
  {
    assert |Name(k + 1)| == k + 1;
    forall i: nat | 1 <= i <= k ensures Name(i) != Name(k + 1) {
      assert |Name(i)| == i;
    }
    var fewer, more := NamesUpTo(k), NamesUpTo(k + 1);
    forall p | p in more ensures p in fewer || p == Name(k + 1) {
      var i: nat :| 1 <= i <= k + 1 && p == Name(i);
    }
    forall p | p in fewer ensures p in more {
      var i: nat :| 1 <= i <= k && p == Name(i);
    }
    assert Name(k + 1) in more;
  }

  lemma FilesGrow(k: nat, at: Stamp, tag: Tag)
    ensures FilesUpTo(k + 1, at, tag) == FilesUpTo(k, at, tag)[k + 1 := Maximal(k + 1, at, tag)]
  {
  }

  lemma NoFilesYet(at: Stamp, tag: Tag)
    ensures FilesUpTo(0, at, tag) == map[] && NamesUpTo(0) == {}
  {
  }

  lemma EmptyBoard() returns (s: State)
    ensures Reached(s) && OneBoard(s, map[], 1, {}, 0) && ActiveBytes(s, 1) == 0
  {
    s := BoardOpened();
    assert Part(Query(s.files, ActiveOn(1), s.now), 0) == 0;
  }

  /** The board with k maximal files; five of them fill it. */
  lemma {:induction false} Filled(k: nat) returns (s: State)
    requires k <= 5
    ensures Reached(s) && OneBoard(s, FilesUpTo(k, Never, Nobody), k + 1, NamesUpTo(k), 0)
    ensures ActiveBytes(s, 1) == k * FILE_MAX_SIZE
  {
    if k == 0 {
      s := EmptyBoard();
      NoFilesYet(Never, Nobody);
    } else {
      var fewer := Filled(k - 1);
      s := OneMore(fewer, FilesUpTo(k - 1, Never, Nobody), k - 1);
      FilesGrow(k - 1, Never, Nobody);
    }
  }

  /** A maximal file beside the first k, of which `files` are left. */
  lemma OneMore(s: State, files: Files, k: nat) returns (t: State)
    requires Reached(s) && OneBoard(s, files, k + 1, NamesUpTo(k), 0)
    requires ActiveBytes(s, 1) + FILE_MAX_SIZE <= FILE_TOTAL_MAX_SIZE
    ensures Reached(t) && OneBoard(t, files[k + 1 := Maximal(k + 1, Never, Nobody)], k + 2, NamesUpTo(k + 1), 0)
    ensures ActiveBytes(t, 1) == ActiveBytes(s, 1) + FILE_MAX_SIZE
  {
    NamesGrow(k);
    t := Uploaded(s, files, k + 1, NamesUpTo(k), 0, FILE_MAX_SIZE, Name(k + 1));
  }

  // ---------- the quota ----------

  /** A board with room for one maximal file again, after its owner deleted one of five. */
  lemma RoomAgain() returns (s: State)
    ensures Reached(s) && OneBoard(s, FilesUpTo(5, Never, Nobody)[5 := Maximal(5, At(0), ByUser)], 6, NamesUpTo(5), 0)
    ensures ActiveBytes(s, 1) == FILE_TOTAL_MAX_SIZE - FILE_MAX_SIZE
  {
    var full := Filled(5);
    var files := FilesUpTo(5, Never, Nobody);
    assert files[5] == Maximal(5, Never, Nobody);
    s := OwnerDeletes(full, files, 6, NamesUpTo(5), 0, 5);
  }

  /** A full board, and a maximal file that its owner deleted before the last upload. */
  lemma FullAgain() returns (s: State)
    ensures Reached(s) && s.now == 0 && s.nextFile == 7
    ensures 5 in s.files && s.files[5] == Maximal(5, At(0), ByUser)
    ensures ActiveBytes(s, 1) == FILE_TOTAL_MAX_SIZE
  {
    var room := RoomAgain();
    s := OneMore(room, FilesUpTo(5, Never, Nobody)[5 := Maximal(5, At(0), ByUser)], 5);
  }

  /** The administrator's single restore looks at no quota: a full board takes one more maximal file. */
  lemma AdminRestorePassesQuota() returns (s: State)
    ensures Reached(s) && QuotaOk(s)
    ensures var o := RecoveryStep(s, AdminRestoreFile(5)); o.reply == Done && !QuotaOk(o.state)
  {
    s := FullAgain();
    ReachedIsSound(s);
    FullBoardOverflows(s, 5);
  }

  lemma FullBoardOverflows(s: State, i: nat)
    requires i in s.files && i < s.nextFile && s.files[i].board == 1 && s.files[i].size > 0
    requires s.files[i].deletedBy.ByUser? && Within(s.files[i].deletedAt, DAYS_90, s.now)
    requires ActiveBytes(s, 1) == FILE_TOTAL_MAX_SIZE
    ensures var o := RecoveryStep(s, AdminRestoreFile(i)); o.reply == Done && !QuotaOk(o.state)
  {
    ActiveWithinReserved(s, 1);
    RestoreOneAdds(s, i, 1);
    assert Reserved(RecoveryStep(s, AdminRestoreFile(i)).state, 1) > FILE_TOTAL_MAX_SIZE;
  }

  /** Five maximal files deleted at time 0. */
  function OldDeletions(): Files {
    FilesUpTo(5, At(0), ByUser)
  }

  lemma AllDeleted() returns (s: State)
    ensures Reached(s) && OneBoard(s, OldDeletions(), 6, NamesUpTo(5), 9 * DAY)
    ensures ActiveBytes(s, 1) == 0
  {
    var full := Filled(5);
    var op := OfFile(DeleteAllFiles(1, true, 1));
    ReachedNext(full, op);
    s := Step(full, op).state;
    assert s.files == OldDeletions();
    s := Ticked(s, 9 * DAY);
    SumZero(Query(s.files, ActiveOn(1), s.now), 6);
  }

  lemma ShortNames()
    ensures "a" !in NamesUpTo(5) && "b" !in NamesUpTo(5) + {"a"}
  {
    forall i: nat | 1 <= i <= 5 ensures Name(i) != "a" && Name(i) != "b" {
      assert Name(i)[0] == 'f';
    }
  }

  /** Ten days after those deletions: one byte deleted yesterday, one byte in use. */
  lemma OneByteEach() returns (s: State)
    ensures Reached(s) && s.now == 10 * DAY && s.nextFile == 8
    ensures LoggedIn(s, 1) && BoardActive(s, 1) && s.boards[1].owner == 1
    ensures s.files == OldDeletions()[6 := FileRow(1, 1, "a", At(9 * DAY), ByUser)][7 := FileRow(1, 1, "b", Never, Nobody)]
    ensures ActiveBytes(s, 1) == 1
  {
    var files, disk, now := OldDeletions(), NamesUpTo(5), 9 * DAY;
    ShortNames();
    s := AllDeleted();
    s := Uploaded(s, files, 6, disk, now, 1, "a");
    s := OwnerDeletes(s, files[6 := FileRow(1, 1, "a", Never, Nobody)], 7, disk + {"a"}, now, 6);
    files := files[6 := FileRow(1, 1, "a", At(now), ByUser)];
    assert s.files == files;
    s := Uploaded(s, files, 7, disk + {"a"}, now, 1, "b");
    var t := Ticked(s, DAY);
    SumEq(Query(t.files, ActiveOn(1), t.now), Query(s.files, ActiveOn(1), s.now), 8);
    s := t;
  }

  /** The sum of eight rows, spelled out. */
  lemma SumOfEight(q: Query)
    ensures Sum(q, 8) == Part(q, 0) + Part(q, 1) + Part(q, 2) + Part(q, 3) + Part(q, 4) + Part(q, 5) + Part(q, 6) + Part(q, 7)
  {
    assert Sum(q, 1) == Part(q, 0);
    assert Sum(q, 2) == Sum(q, 1) + Part(q, 1);
    assert Sum(q, 3) == Sum(q, 2) + Part(q, 2);
    assert Sum(q, 4) == Sum(q, 3) + Part(q, 3);
    assert Sum(q, 5) == Sum(q, 4) + Part(q, 4);
    assert Sum(q, 6) == Sum(q, 5) + Part(q, 5);
    assert Sum(q, 7) == Sum(q, 6) + Part(q, 6);
  }

  lemma OldAndNewBytes(s: State)
    requires s.now == 10 * DAY && s.nextFile == 8
    requires s.files == OldDeletions()[6 := FileRow(1, 1, "a", At(9 * DAY), ByUser)][7 := FileRow(1, 1, "b", Never, Nobody)]
    ensures Bytes(s, UserDeletedOn(1, DAYS_7)) == 1
    ensures Bytes(s, UserDeletedOn(1, DAYS_30)) == FILE_TOTAL_MAX_SIZE + 1
  {
    SumOfEight(Query(s.files, UserDeletedOn(1, DAYS_7), s.now));
    SumOfEight(Query(s.files, UserDeletedOn(1, DAYS_30), s.now));
  }

  /** The owner's bulk restore checks two bytes and brings back 25 MB beside them. */
  lemma UserBulkRestorePassesQuota() returns (s: State)
    ensures Reached(s) && QuotaOk(s)
    ensures var o := FileStep(s, RestoreAllFiles(1, true, 1)); o.reply == Done && !QuotaOk(o.state)
  {
    s := OneByteEach();
    OldAndNewBytes(s);
    ReachedIsSound(s);
    BulkRestoreOverflows(s);
  }

  lemma BulkRestoreOverflows(s: State)
    requires FilesSound(s.files, s.boards, s.nextFile) && Provenance(s.files, s.boards, s.users)
    requires LoggedIn(s, 1) && BoardActive(s, 1) && s.boards[1].owner == 1
    requires ActiveBytes(s, 1) == Bytes(s, UserDeletedOn(1, DAYS_7)) == 1
    requires Bytes(s, UserDeletedOn(1, DAYS_30)) == FILE_TOTAL_MAX_SIZE + 1
    ensures var o := FileStep(s, RestoreAllFiles(1, true, 1)); o.reply == Done && !QuotaOk(o.state)
  {
    RoundTrips.BulkRestoreServedIff(s, 1, 1);
    UserBulkReserved(s, RestoreAllFiles(1, true, 1));
    assert Reserved(FileStep(s, RestoreAllFiles(1, true, 1)).state, 1) > FILE_TOTAL_MAX_SIZE;
  }

  // ---------- totals ----------

  /** The administrator's delete of all files leaves the total of the board standing. */
  lemma AdminDeleteAllLeavesStaleTotal() returns (s: State)
    ensures Reached(s) && TotalsExact(s)
    ensures var o := AdminServices.DeleteAllFiles(s, 1, FileScheduled); o.reply == Done && !TotalsExact(o.state)
  {
    s := Filled(1);
    ReachedIsSound(s);
    assert IsActiveOn(s.files, 1, 1);
    assert TotalExact(s, 1);
    AdminDeleteAllKeepsTotalsIff(s, 1, FileScheduled);
  }

  // ---------- a file put back on a deleted board ----------

  lemma DeletedBoard() returns (s: State)
    ensures Reached(s) && s.now == 0 && s.nextUser == 2 && s.nextBoard == 2
    ensures s.users == map[1 := UserRow(Chosen("owner1"), Active, 0, Never, Never, Nobody)]
    ensures s.boards.Keys == {1} && s.boards[1] == BoardRow(1, s.boards[1].total, At(0), AdminScheduled)
    ensures s.files == map[1 := Maximal(1, At(0), BoardCascade)]
  {
    s := Filled(1);
    assert s.files == map[1 := Maximal(1, Never, Nobody)];
    ReachedNext(s, OfSanction(AdminDeleteBoard(1, Scheduled)));
    s := Step(s, OfSanction(AdminDeleteBoard(1, Scheduled))).state;
    assert s.files == map[1 := Maximal(1, At(0), BoardCascade)];
  }

  /** A file on a board that an administrator scheduled for deletion at time 0, and then restored singly. */
  lemma RestoredOnDeletedBoard() returns (s: State)
    ensures Reached(s) && s.now == 0 && s.nextUser == 2 && s.nextBoard == 2
    ensures s.users == map[1 := UserRow(Chosen("owner1"), Active, 0, Never, Never, Nobody)]
    ensures s.boards.Keys == {1} && s.boards[1] == BoardRow(1, s.boards[1].total, At(0), AdminScheduled)
    ensures s.files == map[1 := Maximal(1, Never, Nobody)]
  {
    s := DeletedBoard();
    ReachedNext(s, OfRecovery(AdminRestoreFile(1)));
    s := Step(s, OfRecovery(AdminRestoreFile(1))).state;
    assert s.files == map[1 := Maximal(1, Never, Nobody)];
  }

  lemma TwiceDeleted() returns (s: State)
    ensures Reached(s) && s.now == DAYS_100
    ensures 1 in s.users && s.users[1].deletedAt == At(DAYS_100 - DAY) && s.users[1].deletedBy.ByUser?
    ensures 1 in s.boards && s.boards[1].owner == 1 && s.boards[1].deletedBy.AdminScheduled? && s.boards[1].deletedAt == At(0)
    ensures 1 in s.files && s.files[1].board == 1 && s.files[1].deletedBy.UserCascade? && s.files[1].deletedAt == At(DAYS_100 - DAY)
  {
    s := RestoredOnDeletedBoard();
    s := Ticked(s, DAYS_100 - DAY);
    ReachedNext(s, OfUser(Withdraw(1, true)));
    s := Step(s, OfUser(Withdraw(1, true))).state;
    s := Ticked(s, DAY);
  }

  /** The board purge can take a file that the owner's return would still have brought back. */
  lemma BoardPurgeTakesRestorableFile() returns (s: State)
    ensures Reached(s) && BringsBack(s, OfUser(RestoreAccount(1, true)), 1)
    ensures 1 !in JobStep(s, PurgeBoards).state.files
  {
    s := TwiceDeleted();
    ReachedIsSound(s);
    ExceedsNeverFires(s, 1);
  }

  /**
   Of the files that were active at the start, the nested deletions can lose one: on another board
   of the account, deleted by an administrator 100 days ago, if the board purge runs in between.
   */
  lemma NestedCascadesLoseFile() returns (s: State)
    ensures Reached(s) && LoggedIn(s, 1) && BoardActive(s, 2) && s.boards[2].owner == 1
    ensures 1 in s.files && s.files[1].deletedAt.Never?
    ensures var back := UserServices.RestoreAccount(Away(s, 1, 2, [PurgeBoards], []), 1, true);
            var o := BoardServices.RestoreBoard(back.state, 1, true, 2);
            back.reply == Done && o.reply == Done && 1 !in o.state.files
  {
    s := RestoredOnDeletedBoard();
    ReachedNext(s, OfBoard(CreateBoard(1)));
    s := Step(s, OfBoard(CreateBoard(1))).state;
    s := Ticked(s, DAYS_100);
    ReachedIsSound(s);
    var jobs := [PurgeBoards] + [] + [];
    assert jobs[..0] == [] && jobs == [PurgeBoards];
    assert Elapsed(jobs[..0]) == 0;
    assert Elapsed(jobs) == Elapsed(jobs[..0]) + 0;
    assert TakenBy(s.boards[1], s.now, jobs, 0);
    assert BoardTaken(s.boards[1], s.now, jobs);
    NestedCascadesUndo(s, 1, 2, [PurgeBoards], [], []);
    var back := UserServices.RestoreAccount(Away(s, 1, 2, [PurgeBoards], []), 1, true);
    assert RunJobs(back.state, []) == back.state;
  }

  // ---------- bans ----------

  /** A request that draws no path and restores no file singly or in bulk. */
  predicate Plain(op: Op) {
    !op.OfFile? && !op.OfRecovery?
  }

  lemma Served(s: State, op: Op) returns (t: State)
    requires Reached(s) && Plain(op)
    ensures Reached(t) && t == Step(s, op).state
  {
    ReachedNext(s, op);
    t := Step(s, op).state;
  }

  /** The first account registers under the given id. */
  lemma Registered(name: string) returns (s: State)
    ensures Reached(s) && s.now == 0
    ensures s.users == map[1 := UserRow(Chosen(name), Active, 0, Never, Never, Nobody)]
  {
    ReachedStart(0);
    s := Served(Init(0), OfUser(Register(true, false, name)));
  }

  /** It is banned n times, and then withdrawn by its owner. */
  lemma BannedAndWithdrawn(n: nat) returns (s: State)
    requires n <= 3
    ensures Reached(s) && s.now == 0 && 1 in s.users
    ensures s.users[1].deletedAt == At(0) && s.users[1].deletedBy.ByUser? && s.users[1].banCount == n
    ensures n > 0 ==> s.users[1].banEndAt.At?
  {
    s := BannedTimes(n);
    s := Served(s, OfUser(Withdraw(1, true)));
  }

  lemma {:induction false} BannedTimes(n: nat) returns (s: State)
    requires n <= 3
    ensures Reached(s) && s.now == 0 && LoggedIn(s, 1) && s.users[1].banCount == n
    ensures n > 0 ==> s.users[1].banEndAt.At?
  {
    if n == 0 {
      s := Registered("owner1");
    } else {
      var before := BannedTimes(n - 1);
      s := Served(before, OfSanction(AdminBan(1)));
    }
  }

  /** The fourth ban of an account that its owner withdrew before is answered success, and the owner returns from it. */
  lemma FourthBanCanBeUndone() returns (s: State)
    ensures Reached(s) && 1 in s.users && s.users[1].banCount == 3
    ensures var ban := AdminServices.Ban(s, 1);
            var back := UserServices.RestoreAccount(ban.state, 1, true);
            && ban.reply == Done && back.reply == Done
            && back.state.users[1].status.Active? && back.state.users[1].banCount == 0
  {
    s := BannedAndWithdrawn(3);
    ReachedIsSound(s);
    FourthBanUndoneIff(s, 1, 0);
    assert AdminServices.Ban(s, 1).state.(now := s.now + 0) == AdminServices.Ban(s, 1).state;
  }

  /** A deleted account comes to show BANNED. */
  lemma DeletedAccountBanned() returns (s: State)
    ensures Reached(s) && 1 in s.users && s.users[1].deletedAt.At? && s.users[1].status.Banned?
  {
    s := BannedAndWithdrawn(0);
    s := Served(s, OfSanction(AdminBan(1)));
  }

  /** An unban is answered success and changes nothing. */
  lemma UnbanWithoutEffect() returns (s: State)
    ensures Reached(s) && AdminServices.Unban(s, 1) == Outcome(s, Done)
  {
    s := BannedAndWithdrawn(1);
    UnbanTakesEffectIff(s, 1);
  }

  /** An account in use shows the end of a ban beside a counter of 0, and cannot be unbanned. */
  lemma StaleEndAfterReturn() returns (s: State)
    ensures Reached(s) && LoggedIn(s, 1) && s.users[1].banCount == 0 && s.users[1].banEndAt.At?
    ensures AdminServices.Unban(s, 1) == Refuse(s, 400)
  {
    var gone := BannedAndWithdrawn(1);
    ReachedIsSound(gone);
    ExceedsNeverFires(gone, 1);
    s := Served(gone, OfUser(RestoreAccount(1, true)));
  }

  // ---------- jobs against restores ----------

  /** A board without files goes: the administrator's restore fails, the owner's is served. */
  lemma EmptyBoardGone() returns (s: State)
    ensures Reached(s) && AdminServices.RestoreBoard(s, 1) == Refuse(s, 500)
    ensures BoardServices.RestoreBoard(s, 1, true, 1).reply == Done
  {
    s := BoardOpened();
    s := Served(s, OfBoard(DeleteBoard(1, true, 1)));
  }

  /** One file, deleted with all others of its board 30 days ago. */
  lemma ThirtyDaysGone() returns (s: State)
    ensures Reached(s) && OneBoard(s, map[1 := Maximal(1, At(0), ByUser)], 2, {Name(1)}, DAYS_30)
    ensures ActiveBytes(s, 1) == 0
  {
    s := Filled(1);
    assert s.files == map[1 := Maximal(1, Never, Nobody)] && s.disk == {Name(1)};
    ReachedNext(s, OfFile(DeleteAllFiles(1, true, 1)));
    s := Step(s, OfFile(DeleteAllFiles(1, true, 1))).state;
    assert s.files == map[1 := Maximal(1, At(0), ByUser)];
    s := Ticked(s, DAYS_30);
    SumZero(Query(s.files, ActiveOn(1), s.now), 2);
  }

  /** The sweep takes a file that an administrator could have restored at the same instant. */
  lemma SweepTakesAdminRestorable() returns (s: State)
    ensures Reached(s) && AdminServices.RestoreFile(s, 1).reply == Done
    ensures 1 !in JobStep(s, SweepFiles({}, 0)).state.files
  {
    s := ThirtyDaysGone();
  }

  /** Beside it, one byte that its owner deleted just now. */
  lemma ThirtyDaysGoneAndRecent() returns (s: State)
    ensures Reached(s) && s.now == DAYS_30 && s.nextFile == 3
    ensures s.files == map[1 := Maximal(1, At(0), ByUser)][2 := FileRow(1, 1, "a", At(DAYS_30), ByUser)]
    ensures LoggedIn(s, 1) && BoardActive(s, 1) && s.boards[1].owner == 1
    ensures ActiveBytes(s, 1) == 0
  {
    var files := map[1 := Maximal(1, At(0), ByUser)];
    var before := ThirtyDaysGone();
    assert Name(1)[0] == 'f';
    var both := Uploaded(before, files, 2, {Name(1)}, DAYS_30, 1, "a");
    s := OwnerDeletes(both, files[2 := FileRow(1, 1, "a", Never, Nobody)], 3, {Name(1)} + {"a"}, DAYS_30, 2);
  }

  /** The owner's bulk restore would bring back a file that a sweep at the same instant takes. */
  lemma SweepTakesBulkRestorable() returns (s: State)
    ensures Reached(s) && BringsBack(s, OfFile(RestoreAllFiles(1, true, 1)), 1)
    ensures 1 !in JobStep(s, SweepFiles({}, 0)).state.files
  {
    s := ThirtyDaysGoneAndRecent();
    RecentByte(s);
    ReachedIsSound(s);
    BulkRestoreTakesOld(s);
  }

  lemma BulkRestoreTakesOld(s: State)
    requires FilesSound(s.files, s.boards, s.nextFile) && s.now == DAYS_30
    requires LoggedIn(s, 1) && BoardActive(s, 1) && s.boards[1].owner == 1
    requires ActiveBytes(s, 1) == 0 && Bytes(s, UserDeletedOn(1, DAYS_7)) == 1
    requires 1 in s.files && s.files[1] == Maximal(1, At(0), ByUser)
    ensures BringsBack(s, OfFile(RestoreAllFiles(1, true, 1)), 1)
  {
    RoundTrips.BulkRestoreServedIff(s, 1, 1);
  }

  lemma RecentByte(s: State)
    requires s.now == DAYS_30 && s.nextFile == 3
    requires s.files == map[1 := Maximal(1, At(0), ByUser)][2 := FileRow(1, 1, "a", At(DAYS_30), ByUser)]
    ensures Bytes(s, UserDeletedOn(1, DAYS_7)) == 1
  {
    var q := Query(s.files, UserDeletedOn(1, DAYS_7), s.now);
    assert Sum(q, 1) == Part(q, 0) == 0;
    assert Sum(q, 2) == Sum(q, 1) + Part(q, 1);
  }

  /**
   An administrator's restore, served after the sweep has read its paths and before or after it
   unlinks them, leaves an active row without its file.
   */
  lemma RestoreInTheGapDangles() returns (s: State)
    ensures Reached(s) && AdminServices.RestoreFile(s, 1).reply == Done
    ensures var unlink := [Unlink(Name(1))];
            var early := RowsDeleted(InterruptedSweep.RunEvents(AdminServices.RestoreFile(s, 1).state, unlink));
            var late := RowsDeleted(AdminServices.RestoreFile(InterruptedSweep.RunEvents(s, unlink), 1).state);
            && 1 in early.files && early.files[1].deletedAt.Never? && early.files[1].path !in early.disk
            && 1 in late.files && late.files[1].deletedAt.Never? && late.files[1].path !in late.disk
  {
    s := ThirtyDaysGone();
    ReachedIsSound(s);
    var unlink := [Unlink(Name(1))];
    assert unlink[0] in unlink;
    assert Unlinks(unlink) == {Name(1)} == PathsRead(s, {});
    assert Unlinks([]) == {};
    RestoreInTheGapDanglesIff(s, {}, [], 1, unlink);
    RestoreInTheGapDanglesIff(s, {}, unlink, 1, []);
  }

  /** The hourly purge of accounts leaves a file on disk without its row. */
  lemma PurgeLeavesOrphan() returns (s: State)
    ensures Reached(s) && !Orphan(s, Name(1)) && Orphan(JobStep(s, PurgeUsers).state, Name(1))
  {
    s := ThirtyDaysGone();
    assert s.files[1].path == Name(1);
  }

  /** An account past its time keeps its id, because its owner chose one that the LIKE pattern matches. */
  lemma AnonymiserSkips() returns (s: State)
    ensures Reached(s) && 1 in s.users && s.users[1].deletedBy.ByUser? && Expired(s.users[1].deletedAt, DAYS_30, s.now)
    ensures s.users[1].id == Chosen("DELETED_1") && JobStep(s, Anonymise).state.users[1].id == Chosen("DELETED_1")
  {
    s := Registered("DELETED_1");
    s := Served(s, OfUser(Withdraw(1, true)));
    s := Ticked(s, DAYS_30);
    AnonymiseExact(s, 1);
    assert "DELETED_1"[..7] == "DELETED";
  }
}
