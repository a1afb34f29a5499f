/** When an administrator's request is served, with what it is refused otherwise, and all that it changes. */
module AdminAnswers {
  import opened Tables
  import opened FilesTable
  import opened Machine
  import opened Soundness
  import opened Columns
  import opened MemberAnswers
  import opened Ownership
  import BoardsTable
  import BoardServices
  import UserServices

  // ---------- bans ----------

  /** One day, then three, then five. */
  function SuspensionSeconds(count: nat): int {
    if count == 0 then 86400 else if count == 1 then 259200 else 432000
  }

  lemma BanAnswers(s: State, u: nat)
    ensures var o := Step(s, OfSanction(AdminBan(u)));
            && o.reply == Require(u in s.users, 404, if u in s.users && s.users[u].banCount > 3 then Declined else Done)
            && (o.reply == Done ==>
                  var r := s.users[u];
                  && o.state == s.(users := s.users[u := o.state.users[u]])
                  && o.state.users[u] ==
                     if r.banCount < 3
                     then r.(status := Banned, banCount := r.banCount + 1, banEndAt := At(s.now + SuspensionSeconds(r.banCount)))
                     else if r.deletedAt == Never
                     then r.(status := Withdrawn, banCount := 4, banEndAt := Never, deletedAt := At(s.now), deletedBy := AdminScheduled)
                     else r.(status := Withdrawn, banCount := 4, banEndAt := Never))
  {
  }

  lemma UnbanAnswers(s: State, u: nat)
    ensures var o := Step(s, OfSanction(AdminUnban(u)));
            && o.reply == Require(u in s.users, 404, Require(u in s.users && s.users[u].banCount != 0, 400, Done))
            && (o.reply == Done ==>
                  o.state == if UserUp(s, u)
                             then s.(users := s.users[u := s.users[u].(status := Active, banCount := 0, banEndAt := Never)])
                             else s)
  {
  }

  // ---------- deletes ----------

  function SoftTag(option: DeleteOption): Tag
    requires option != Immediate
  {
    if option == Scheduled then AdminScheduled else AdminRetain
  }

  lemma DeleteUserAnswers(s: State, u: nat, option: DeleteOption)
    requires option != Immediate
    ensures var o := Step(s, OfSanction(AdminDeleteUser(u, option)));
            var t := o.state;
            && o.reply == Require(UserUp(s, u), 404, Done)
            && (o.reply == Done ==>
                  && t == s.(users := t.users, boards := t.boards, files := t.files)
                  && t.users == s.users[u := s.users[u].(deletedAt := At(s.now), deletedBy := SoftTag(option), status := Withdrawn)]
                  && TotalsZeroed(s.boards, t.boards, u)
                  && Rewritten(s.files, t.files, ActiveFilesOf(s, u), At(s.now), UserCascade))
  {
  }

  /** The immediate delete keeps the account's row, without its login id, and its boards, without their files. */
  lemma DeleteUserNowAnswers(s: State, u: nat)
    ensures var o := Step(s, OfSanction(AdminDeleteUser(u, Immediate)));
            var t := o.state;
            && o.reply == Require(u in s.users, 404, Done)
            && (o.reply == Done ==>
                  && t == s.(users := t.users, boards := t.boards, files := t.files)
                  && t.users == s.users[u := s.users[u].(id := Anonymous(u, s.now), status := Withdrawn,
                                                         deletedAt := At(s.now), deletedBy := AdminImmediate)]
                  && TotalsZeroed(s.boards, t.boards, u)
                  && Removed(s.files, t.files, FilesOf(s, u)))
  {
  }

  lemma DeleteBoardAnswers(s: State, b: nat, option: DeleteOption)
    requires option != Immediate
    ensures var o := Step(s, OfSanction(AdminDeleteBoard(b, option)));
            var t := o.state;
            && o.reply == Require(BoardUp(s, b), 404, Done)
            && (o.reply == Done ==>
                  && t == s.(boards := t.boards, files := t.files)
                  && t.boards == s.boards[b := s.boards[b].(deletedAt := At(s.now), deletedBy := SoftTag(option))]
                  && Rewritten(s.files, t.files, ActiveFilesOn(s, b), At(s.now), BoardCascade))
  {
  }

  /** The immediate delete removes the board, deleted before or not, and every file on it. */
  lemma DeleteBoardNowAnswers(s: State, b: nat)
    ensures var o := Step(s, OfSanction(AdminDeleteBoard(b, Immediate)));
            var t := o.state;
            && o.reply == Require(b in s.boards, 404, Done)
            && (o.reply == Done ==>
                  && t == s.(boards := t.boards, files := t.files)
                  && b !in t.boards && t.boards.Keys == s.boards.Keys - {b}
                  && (forall c :: c in t.boards ==> t.boards[c] == s.boards[c])
                  && Removed(s.files, t.files, FilesOn(s, b)))
  {
  }

  lemma DeleteFileAnswers(s: State, i: nat)
    requires FilesSound(s.files, s.boards, s.nextFile)
    ensures var o := Step(s, OfSanction(AdminDeleteFile(i, FileScheduled)));
            var t := o.state;
            && o.reply == Require(FileUp(s, i), 404, Done)
            && (o.reply == Done ==>
                  && t == s.(boards := t.boards, files := t.files)
                  && Rewritten(s.files, t.files, {i}, At(s.now), AdminScheduled)
                  && s.files[i].board in s.boards
                  && TotalWritten(s.boards, t.boards, s.files[i].board, ActiveSize(t, s.files[i].board)))
  {
    if i in s.files {
      assert FileSound(s.files[i], i, s.boards, s.nextFile);
      RecountOnColumns(s.(files := SoftDeleteOneFile(s.files, AdminScheduled, i, s.now)), s.files[i].board);
    }
  }

  lemma DeleteFileNowAnswers(s: State, i: nat)
    requires FilesSound(s.files, s.boards, s.nextFile)
    ensures var o := Step(s, OfSanction(AdminDeleteFile(i, FileImmediate)));
            var t := o.state;
            && o.reply == Require(i in s.files, 404, Done)
            && (o.reply == Done ==>
                  && t == s.(boards := t.boards, files := t.files)
                  && Removed(s.files, t.files, {i})
                  && s.files[i].board in s.boards
                  && TotalWritten(s.boards, t.boards, s.files[i].board, ActiveSize(t, s.files[i].board)))
  {
    if i in s.files {
      assert FileSound(s.files[i], i, s.boards, s.nextFile);
      RecountOnColumns(s.(files := HardDeleteOneFile(s.files, i)), s.files[i].board);
    }
  }

  /** Of all files of a board, the active ones are scheduled, or all rows removed; the total stays. */
  lemma DeleteAllFilesAnswers(s: State, b: nat, option: FileDeleteOption)
    ensures var o := Step(s, OfSanction(AdminDeleteAllFiles(b, option)));
            && o.reply == Require(b in s.boards, 404, Done)
            && (o.reply == Done ==>
                  && o.state == s.(files := o.state.files)
                  && if option == FileScheduled
                     then Rewritten(s.files, o.state.files, ActiveFilesOn(s, b), At(s.now), AdminScheduled)
                     else Removed(s.files, o.state.files, FilesOn(s, b)))
  {
  }

  // ---------- restores ----------

  lemma RestoreUserAnswers(s: State, u: nat)
    requires UniqueIds(s.users)
    ensures var o := Step(s, OfRecovery(AdminRestoreUser(u)));
            && o.reply == Require(u in s.users && s.users[u].deletedAt != Never, 404,
                          Require(u in s.users && Recent(s.users[u].deletedAt, 7776000, s.now), 403,
                          Require(!WouldExceed(s, u), 400, Done)))
            && (o.reply == Done ==> AccountReturned(s, o.state, u, CascadedFilesOf(s, u, 7776000)))
  {
    ExceedsOnColumns(s, u);
    if u in s.users && s.users[u].deletedAt != Never {
      ReinstateOnColumns(s, u, 7776000);
    }
  }

  lemma RestoreBoardAnswers(s: State, b: nat)
    ensures var o := Step(s, OfRecovery(AdminRestoreBoard(b)));
            && o.reply == Require(BoardDown(s, b), 404,
                          Require(b in s.boards && Recent(s.boards[b].deletedAt, 7776000, s.now), 403,
                          Require(exists i :: i in s.files && s.files[i].board == b &&
                                              Recent(s.files[i].deletedAt, 7776000, s.now), 500,
                          Require(DeletedSize(s, b, 7776000) <= 26214400, 413, Done))))
            && (o.reply == Done ==> BoardReturned(s, o.state, b, CascadedFilesOn(s, b, 7776000)))
  {
    SumsAreSizes(s, b, 7776000);
    AnyOnColumns(s, b);
    if b in s.boards {
      ReinstateBoardOnColumns(s, b, 7776000);
    }
  }

  lemma AnyOnColumns(s: State, b: nat)
    ensures Any(s, DeletedOn(b, DAYS_90)) <==>
            exists i :: i in s.files && s.files[i].board == b && Recent(s.files[i].deletedAt, 7776000, s.now)
  {
    forall i | i in s.files
      ensures Selects(DeletedOn(b, DAYS_90), s.files[i], s.now) <==>
              s.files[i].board == b && Recent(s.files[i].deletedAt, 7776000, s.now)
    {
    }
  }

  /** Whoever deleted the file, whatever its board and the quota: only the 90 days count. */
  lemma RestoreFileAnswers(s: State, i: nat)
    requires FilesSound(s.files, s.boards, s.nextFile)
    ensures var o := Step(s, OfRecovery(AdminRestoreFile(i)));
            var t := o.state;
            && o.reply == Require(FileDown(s, i), 404,
                          Require(i in s.files && Recent(s.files[i].deletedAt, 7776000, s.now), 403, Done))
            && (o.reply == Done ==>
                  && t == s.(boards := t.boards, files := t.files)
                  && Rewritten(s.files, t.files, {i}, Never, Nobody)
                  && s.files[i].board in s.boards
                  && TotalWritten(s.boards, t.boards, s.files[i].board, ActiveSize(t, s.files[i].board)))
  {
    if i in s.files {
      assert FileSound(s.files[i], i, s.boards, s.nextFile);
      RecountOnColumns(s.(files := RestoreOneFile(s.files, i)), s.files[i].board);
    }
  }

  function DeletedFilesOn(s: State, b: nat, seconds: int): set<nat> {
    set i | i in s.files && s.files[i].board == b && Recent(s.files[i].deletedAt, seconds, s.now)
  }

  lemma RestoreAllFilesAnswers(s: State, b: nat)
    ensures var o := Step(s, OfRecovery(AdminRestoreAllFiles(b)));
            var t := o.state;
            && o.reply == Require(BoardUp(s, b), 404,
                          Require(exists i :: i in s.files && s.files[i].board == b && s.files[i].deletedAt != Never, 404,
                          Require(DeletedSize(s, b, 7776000) > 0, 404,
                          Require(ActiveSize(s, b) + DeletedSize(s, b, 7776000) <= 26214400, 413, Done))))
            && (o.reply == Done ==>
                  && t == s.(boards := t.boards, files := t.files)
                  && Rewritten(s.files, t.files, DeletedFilesOn(s, b, 7776000), Never, Nobody)
                  && TotalWritten(s.boards, t.boards, b, ActiveSize(t, b)))
  {
    SumsAreSizes(s, b, 7776000);
    RecountOnColumns(s.(files := AdminRestoreAllRestorableFiles(s.files, b, s.now)), b);
  }

  // ---------- what an administrator deleted stays deleted for members ----------

  /** The request is a scheduled delete, by an administrator, that takes file i. */
  predicate SchedulesFile(s: State, op: Op, i: nat) {
    match op
    case OfSanction(AdminDeleteFile(k, FileScheduled)) => k == i
    case OfSanction(AdminDeleteAllFiles(b, FileScheduled)) => i in ActiveFilesOn(s, b)
    case OfSanction(AdminDeleteBoard(b, Scheduled)) => i in ActiveFilesOn(s, b)
    case OfSanction(AdminDeleteBoard(b, Retain)) => i in ActiveFilesOn(s, b)
    case OfSanction(AdminDeleteUser(u, Scheduled)) => i in ActiveFilesOf(s, u)
    case OfSanction(AdminDeleteUser(u, Retain)) => i in ActiveFilesOf(s, u)
    case _ => false
  }

  /** Such a delete, once served, leaves the file held, deleted at that instant. */
  lemma ScheduledFileIsHeld(s: State, op: Op, i: nat)
    requires FilesSound(s.files, s.boards, s.nextFile) && BoardsSound(s.boards, s.users, s.nextBoard)
    requires SchedulesFile(s, op, i) && Step(s, op).reply == Done
    ensures var t := Step(s, op).state;
            i in t.files && t.files[i].deletedAt == At(s.now) && Held(t, i)
  {
    match op.sanction
    case AdminDeleteFile(_, _) => DeleteFileAnswers(s, i);
    case AdminDeleteAllFiles(b, option) => DeleteAllFilesAnswers(s, b, option);
    case AdminDeleteBoard(b, option) => DeleteBoardAnswers(s, b, option);
    case AdminDeleteUser(u, option) =>
      DeleteUserAnswers(s, u, option);
      assert BoardSound(s.boards[s.files[i].board], s.files[i].board, s.users, s.nextBoard);
  }

  /** File i is in t the row that it is in s, deleted at the given time. */
  predicate StaysDeleted(s: State, t: State, i: nat, at: int) {
    i in s.files && i in t.files && t.files[i] == s.files[i] && t.files[i].deletedAt == At(at)
  }

  /**
   A file that an administrator scheduled for deletion, by itself, with all files of its board, with
   its board or with its account, is brought back by no run of members' requests.
   */
  lemma ScheduledFileStaysDeleted(s: State, op: Op, i: nat, ops: seq<Op>)
    requires Sound(s) && SchedulesFile(s, op, i) && Step(s, op).reply == Done
    requires forall k :: 0 <= k < |ops| ==> OfMember(ops[k])
    ensures StaysDeleted(Step(s, op).state, Run(Step(s, op).state, ops), i, s.now)
  {
    StepSound(s, op);
    ScheduledFileIsHeld(s, op, i);
    HeldFileStays(Step(s, op).state, i, ops);
  }

  lemma HeldFileStays(s: State, i: nat, ops: seq<Op>)
    requires Sound(s) && i in s.files && Held(s, i)
    requires forall k :: 0 <= k < |ops| ==> OfMember(ops[k])
    ensures i in Run(s, ops).files && Run(s, ops).files[i] == s.files[i]
  {
    MemberRunCannotOverrule(s, ops);
  }
}
