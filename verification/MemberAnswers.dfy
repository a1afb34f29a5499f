/** When a member's request is served, with what it is refused otherwise, and all that it changes. */
module MemberAnswers {
  import opened Tables
  import opened FilesTable
  import opened Machine
  import opened Soundness
  import opened Columns
  import BoardsTable
  import FileServices
  import BoardServices
  import UserServices

  // ---------- accounts ----------

  lemma RegisterAnswers(s: State, verified: bool, emailTaken: bool, name: string)
    ensures var o := Step(s, OfUser(Register(verified, emailTaken, name)));
            && o.reply == Require(verified, 403, Require(!IdInUse(s, name), 409, Require(!emailTaken, 409, Done)))
            && (o.reply == Done ==>
                  o.state == s.(users := s.users[s.nextUser := UserRow(Chosen(name), Active, 0, Never, Never, Nobody)],
                                nextUser := s.nextUser + 1))
  {
  }

  lemma RenameAnswers(s: State, u: nat, passwordOk: bool, name: string)
    ensures var o := Step(s, OfUser(Rename(u, passwordOk, name)));
            && o.reply == Require(UserUp(s, u) && passwordOk, 401, Require(!IdInUse(s, name), 409, Done))
            && (o.reply == Done ==> o.state == s.(users := s.users[u := s.users[u].(id := Chosen(name))]))
  {
  }

  lemma WithdrawAnswers(s: State, u: nat, passwordOk: bool)
    ensures var o := Step(s, OfUser(Withdraw(u, passwordOk)));
            var t := o.state;
            && o.reply == Require(UserUp(s, u) && passwordOk, 401, Done)
            && (o.reply == Done ==>
                  && t == s.(users := t.users, boards := t.boards, files := t.files)
                  && t.users == s.users[u := s.users[u].(deletedAt := At(s.now), deletedBy := ByUser, status := Withdrawn)]
                  && TotalsZeroed(s.boards, t.boards, u)
                  && Rewritten(s.files, t.files, ActiveFilesOf(s, u), At(s.now), UserCascade))
  {
  }

  /** The files that an account restore brings back: those that went with the account. */
  function CascadedFilesOf(s: State, u: nat, seconds: int): set<nat> {
    set i | i in s.files && BoardOf(s, s.files[i].board, u) && s.files[i].deletedBy == UserCascade &&
            Recent(s.files[i].deletedAt, seconds, s.now)
  }

  /** A board of u that would be over 25 MB with the cascaded files back. */
  predicate WouldExceed(s: State, u: nat) {
    exists b :: b in s.boards && s.boards[b].owner == u && ActiveOrCascadedSize(s, b) > 26214400
  }

  /** Account u is back with the given files, and its boards, deleted ones too, have their totals recomputed. */
  predicate AccountReturned(s: State, t: State, u: nat, back: set<nat>)
    requires u in s.users
  {
    && t == s.(users := t.users, boards := t.boards, files := t.files)
    && t.users == s.users[u := s.users[u].(deletedAt := Never, deletedBy := Nobody, status := Active, banCount := 0)]
    && t.boards.Keys == s.boards.Keys
    && (forall b :: b in s.boards ==>
          t.boards[b] == if s.boards[b].owner == u then s.boards[b].(total := ActiveSize(t, b)) else s.boards[b])
    && Rewritten(s.files, t.files, back, Never, Nobody)
  }

  lemma ExceedsOnColumns(s: State, u: nat)
    ensures UserServices.Exceeds(s, u) <==> WouldExceed(s, u)
  {
    forall b: nat ensures Bytes(s, ActiveOrUserCascadeOn(b)) == ActiveOrCascadedSize(s, b) {
      SumsAreSizes(s, b, 0);
    }
  }

  lemma ReinstateOnColumns(s: State, u: nat, window: int)
    requires UniqueIds(s.users) && u in s.users && s.users[u].deletedAt != Never
    ensures AccountReturned(s, UserServices.Reinstate(s, u, window), u, CascadedFilesOf(s, u, window))
  {
    var t := UserServices.Reinstate(s, u, window);
    var mid := s.(users := t.users, files := t.files);
    RestoreByIdIsByKey(s.users, u);
    forall b | b in s.boards ensures ActiveBytes(mid, b) == ActiveSize(t, b) {
      SumsAreSizes(mid, b, 0);
    }
  }

  /** The account comes back within 7 days of its owner's withdrawal, with the files cascaded in 30. */
  lemma RestoreAccountAnswers(s: State, u: nat, passwordOk: bool)
    requires UniqueIds(s.users)
    ensures var o := Step(s, OfUser(RestoreAccount(u, passwordOk)));
            && o.reply == Require(u in s.users && s.users[u].deletedAt != Never && passwordOk, 401,
                          Require(u in s.users && Recent(s.users[u].deletedAt, 604800, s.now), 403,
                          Require(u in s.users && s.users[u].deletedBy == ByUser, 403,
                          Require(!WouldExceed(s, u), 400, Done))))
            && (o.reply == Done ==> AccountReturned(s, o.state, u, CascadedFilesOf(s, u, 2592000)))
  {
    ExceedsOnColumns(s, u);
    if u in s.users && s.users[u].deletedAt != Never {
      ReinstateOnColumns(s, u, 2592000);
    }
  }

  // ---------- boards ----------

  lemma CreateBoardAnswers(s: State, u: nat)
    ensures var o := Step(s, OfBoard(CreateBoard(u)));
            && o.reply == Require(UserUp(s, u), 401, Done)
            && (o.reply == Done ==>
                  o.state == s.(boards := s.boards[s.nextBoard := BoardRow(u, 0, Never, Nobody)], nextBoard := s.nextBoard + 1))
  {
  }

  lemma DeleteBoardAnswers(s: State, u: nat, passwordOk: bool, b: nat)
    ensures var o := Step(s, OfBoard(DeleteBoard(u, passwordOk, b)));
            var t := o.state;
            && o.reply == Require(UserUp(s, u) && passwordOk, 401,
                          Require(BoardUp(s, b), 404, Require(BoardOf(s, b, u), 403, Done)))
            && (o.reply == Done ==>
                  && t == s.(boards := t.boards, files := t.files)
                  && t.boards == s.boards[b := s.boards[b].(deletedAt := At(s.now), deletedBy := ByUser)]
                  && Rewritten(s.files, t.files, ActiveFilesOn(s, b), At(s.now), BoardCascade))
  {
  }

  /** The files that a board restore brings back: those that went with the board. */
  function CascadedFilesOn(s: State, b: nat, seconds: int): set<nat> {
    set i | i in s.files && s.files[i].board == b && s.files[i].deletedBy == BoardCascade &&
            Recent(s.files[i].deletedAt, seconds, s.now)
  }

  predicate BoardReturned(s: State, t: State, b: nat, back: set<nat>)
    requires b in s.boards
  {
    && t == s.(boards := t.boards, files := t.files)
    && t.boards == s.boards[b := s.boards[b].(deletedAt := Never, deletedBy := Nobody, total := ActiveSize(t, b))]
    && Rewritten(s.files, t.files, back, Never, Nobody)
  }

  lemma ReinstateBoardOnColumns(s: State, b: nat, window: int)
    requires b in s.boards
    ensures BoardReturned(s, BoardServices.Reinstate(s, b, window), b, CascadedFilesOn(s, b, window))
  {
    var t := BoardServices.Reinstate(s, b, window);
    SumsAreSizes(t, b, 0);
    var mid := s.(boards := BoardsTable.RestoreBoard(s.boards, b), files := t.files);
    assert ActiveBytes(mid, b) == ActiveBytes(t, b);
  }

  /** The board comes back within 7 days of its owner's delete, and at no other time. */
  lemma RestoreBoardAnswers(s: State, u: nat, passwordOk: bool, b: nat)
    ensures var o := Step(s, OfBoard(RestoreBoard(u, passwordOk, b)));
            && o.reply == Require(UserUp(s, u) && passwordOk, 401,
                          Require(BoardDown(s, b), 404,
                          Require(BoardOf(s, b, u), 403,
                          Require(b in s.boards && Recent(s.boards[b].deletedAt, 604800, s.now), 403,
                          Require(b in s.boards && s.boards[b].deletedBy == ByUser, 403, Done)))))
            && (o.reply == Done ==> BoardReturned(s, o.state, b, CascadedFilesOn(s, b, 2592000)))
  {
    if b in s.boards {
      ReinstateBoardOnColumns(s, b, 2592000);
    }
  }

  // ---------- files ----------

  lemma UploadAnswers(s: State, u: nat, b: nat, size: nat, allowedType: bool, path: string)
    ensures var o := Step(s, OfFile(Upload(u, b, size, allowedType, path)));
            var t := o.state;
            && o.reply == Require(UserUp(s, u), 401,
                          Require(BoardUp(s, b), 404,
                          Require(BoardOf(s, b, u), 403,
                          Require(allowedType, 415,
                          Require(ActiveSize(s, b) + size <= 26214400, 413,
                          Require(size <= 5242880, 413, Done))))))
            && (o.reply == Done ==>
                  && t == s.(boards := t.boards, disk := s.disk + {path}, nextFile := s.nextFile + 1,
                             files := s.files[s.nextFile := FileRow(b, size, path, Never, Nobody)])
                  && TotalWritten(s.boards, t.boards, b, ActiveSize(t, b)))
  {
    var t := Step(s, OfFile(Upload(u, b, size, allowedType, path))).state;
    SumsAreSizes(s, b, 0);
    SumsAreSizes(t, b, 0);
    RecountOnColumns(FileServices.InsertFile(s.(disk := s.disk + {path}), b, size, path), b);
  }

  lemma RecountOnColumns(s: State, b: nat)
    ensures var t := BoardsTable.Recount(s, b);
            && t == s.(boards := t.boards)
            && (b in s.boards ==> TotalWritten(s.boards, t.boards, b, ActiveSize(t, b)))
  {
    SumsAreSizes(s, b, 0);
  }

  lemma DeleteFileAnswers(s: State, u: nat, passwordOk: bool, i: nat)
    ensures var o := Step(s, OfFile(DeleteFile(u, passwordOk, i)));
            var t := o.state;
            && o.reply == Require(UserUp(s, u) && passwordOk, 401,
                          Require(FileOnBoardUp(s, i), 404, Require(FileOf(s, i, u), 403, Require(FileUp(s, i), 404, Done))))
            && (o.reply == Done ==>
                  && t == s.(boards := t.boards, files := t.files)
                  && Rewritten(s.files, t.files, {i}, At(s.now), ByUser)
                  && TotalWritten(s.boards, t.boards, s.files[i].board, ActiveSize(t, s.files[i].board)))
  {
    if i in s.files {
      RecountOnColumns(s.(files := SoftDeleteOneFile(s.files, ByUser, i, s.now)), s.files[i].board);
    }
  }

  lemma DeleteAllFilesAnswers(s: State, u: nat, passwordOk: bool, b: nat)
    ensures var o := Step(s, OfFile(DeleteAllFiles(u, passwordOk, b)));
            var t := o.state;
            && o.reply == Require(UserUp(s, u) && passwordOk, 401,
                          Require(BoardUp(s, b), 404, Require(BoardOf(s, b, u), 403, Done)))
            && (o.reply == Done ==>
                  && t == s.(boards := t.boards, files := t.files)
                  && Rewritten(s.files, t.files, ActiveFilesOn(s, b), At(s.now), ByUser)
                  && TotalWritten(s.boards, t.boards, b, 0))
  {
  }

  /** The owner brings back one file deleted by them at most 7 days ago, onto a board in use with room for it. */
  lemma RestoreFileAnswers(s: State, u: nat, passwordOk: bool, i: nat)
    ensures var o := Step(s, OfFile(RestoreFile(u, passwordOk, i)));
            var t := o.state;
            && o.reply == Require(UserUp(s, u), 401,
                          Require(i in s.files, 404,
                          Require(passwordOk, 401,
                          Require(FileOnBoardUp(s, i) && FileOf(s, i, u), 403,
                          Require(FileDown(s, i), 404,
                          Require(i in s.files && s.files[i].size + ActiveSize(s, s.files[i].board) <= 26214400, 413,
                          Require(i in s.files && Recent(s.files[i].deletedAt, 604800, s.now), 403,
                          Require(i in s.files && s.files[i].deletedBy == ByUser, 403, Done))))))))
            && (o.reply == Done <==>
                  && passwordOk && UserUp(s, u) && FileOnBoardUp(s, i) && FileOf(s, i, u)
                  && s.files[i].deletedBy == ByUser && Recent(s.files[i].deletedAt, 604800, s.now)
                  && s.files[i].size + ActiveSize(s, s.files[i].board) <= 26214400)
            && (o.reply == Done ==>
                  && t == s.(boards := t.boards, files := t.files)
                  && Rewritten(s.files, t.files, {i}, Never, Nobody)
                  && TotalWritten(s.boards, t.boards, s.files[i].board, ActiveSize(t, s.files[i].board)))
  {
    if i in s.files {
      SumsAreSizes(s, s.files[i].board, 0);
      RecountOnColumns(s.(files := RestoreOneFile(s.files, i)), s.files[i].board);
    }
  }

  /** The files that the owner's bulk restore brings back. */
  function OwnerDeletedFilesOn(s: State, b: nat, seconds: int): set<nat> {
    set i | i in s.files && s.files[i].board == b && s.files[i].deletedBy == ByUser &&
            Recent(s.files[i].deletedAt, seconds, s.now)
  }

  lemma RestoreAllFilesAnswers(s: State, u: nat, passwordOk: bool, b: nat)
    ensures var o := Step(s, OfFile(RestoreAllFiles(u, passwordOk, b)));
            var t := o.state;
            && o.reply == Require(UserUp(s, u) && passwordOk, 401,
                          Require(BoardUp(s, b) && BoardOf(s, b, u), 403,
                          Require(exists i :: i in s.files && s.files[i].board == b && s.files[i].deletedAt != Never, 404,
                          Require(OwnerDeletedSize(s, b, 604800) > 0, 404,
                          Require(ActiveSize(s, b) + OwnerDeletedSize(s, b, 604800) <= 26214400, 413, Done)))))
            && (o.reply == Done ==>
                  && t == s.(boards := t.boards, files := t.files)
                  && Rewritten(s.files, t.files, OwnerDeletedFilesOn(s, b, 2592000), Never, Nobody)
                  && TotalWritten(s.boards, t.boards, b, ActiveSize(t, b)))
  {
    SumsAreSizes(s, b, 604800);
    RecountOnColumns(s.(files := UserRestoreAllRestorableFiles(s.files, b, s.now)), b);
  }
}
