/** What each service of app/services/admin.py that changes the tables answers and commits. */
module AdminServices {
  import opened Tables
  import opened FilesTable
  import opened DatabaseAccess
  import B = BoardsTable
  import U = UsersTable
  import FileServices
  import BoardServices
  import UserServices

  function BanDays(count: nat): int {
    if count == 0 then 1 else if count == 1 then 3 else 5
  }

  /** The fourth ban deletes the account and leaves its files alone. */
  function Ban(s: State, u: nat): Outcome {
    if u !in s.users then Refuse(s, 404)
    else
      var count := s.users[u].banCount;
      if count == 3 then
        Commit(s.(users := U.AdminUser4BanSettings(U.SoftDeleteUser(s.users, AdminScheduled, u, s.now), u)))
      else if count > 3 then Outcome(s, Declined)
      else Commit(s.(users := U.AdminBan(s.users, u, BanDays(count), s.now)))
  }

  function Unban(s: State, u: nat): Outcome {
    if u !in s.users then Refuse(s, 404)
    else if s.users[u].banCount == 0 then Refuse(s, 400)
    else Commit(s.(users := U.AdminUnban(s.users, u)))
  }

  function DeleteUser(s: State, u: nat, option: DeleteOption): Outcome {
    match option
    case Scheduled =>
      if !LoggedIn(s, u) then Refuse(s, 404) else Commit(UserServices.Suspend(s, AdminScheduled, u))
    case Retain =>
      if !LoggedIn(s, u) then Refuse(s, 404) else Commit(UserServices.Suspend(s, AdminRetain, u))
    case Immediate =>
      if u !in s.users then Refuse(s, 404)
      else Commit(s.(users := U.HardDeleteUser(s.users, u, s.now),
                     files := HardDeleteAllUserFiles(s.files, s.boards, u),
                     boards := B.UpdateAllUserBoardsTotalFsize(s.boards, 0, u)))
  }

  function DeleteBoard(s: State, b: nat, option: DeleteOption): Outcome {
    match option
    case Scheduled =>
      if !BoardActive(s, b) then Refuse(s, 404)
      else Commit(s.(boards := B.SoftDeleteBoard(s.boards, AdminScheduled, b, s.now),
                     files := SoftDeleteAllBoardFiles(s.files, BoardCascade, b, s.now)))
    case Retain =>
      if !BoardActive(s, b) then Refuse(s, 404)
      else Commit(s.(boards := B.SoftDeleteBoard(s.boards, AdminRetain, b, s.now),
                     files := SoftDeleteAllBoardFiles(s.files, BoardCascade, b, s.now)))
    case Immediate =>
      if b !in s.boards then Refuse(s, 404)
      else Commit(s.(files := HardDeleteAllBoardFiles(s.files, b), boards := s.boards - {b}))
  }

  function DeleteFile(s: State, i: nat, option: FileDeleteOption): Outcome {
    match option
    case FileScheduled =>
      if i !in s.files || s.files[i].deletedAt.At? then Refuse(s, 404)
      else Commit(B.Recount(s.(files := SoftDeleteOneFile(s.files, AdminScheduled, i, s.now)), s.files[i].board))
    case FileImmediate =>
      if i !in s.files then Refuse(s, 404)
      else Commit(B.Recount(s.(files := HardDeleteOneFile(s.files, i)), s.files[i].board))
  }

  /** The board's total is not reset. */
  function DeleteAllFiles(s: State, b: nat, option: FileDeleteOption): Outcome {
    if b !in s.boards then Refuse(s, 404)
    else
      match option
      case FileScheduled => Commit(s.(files := SoftDeleteAllBoardFiles(s.files, AdminScheduled, b, s.now)))
      case FileImmediate => Commit(s.(files := HardDeleteAllBoardFiles(s.files, b)))
  }

  function RestoreUser(s: State, u: nat): Outcome {
    if u !in s.users || s.users[u].deletedAt.Never? then Refuse(s, 404)
    else if !Within(s.users[u].deletedAt, DAYS_90, s.now) then Refuse(s, 403)
    else if UserServices.Exceeds(s, u) then Refuse(s, 400)
    else Commit(UserServices.Reinstate(s, u, DAYS_90))
  }

  /** With no restorable file the SUM is NULL and its comparison with the limit raises. */
  function RestoreBoard(s: State, b: nat): Outcome {
    if b !in s.boards || s.boards[b].deletedAt.Never? then Refuse(s, 404)
    else if !Within(s.boards[b].deletedAt, DAYS_90, s.now) then Refuse(s, 403)
    else if !Any(s, DeletedOn(b, DAYS_90)) then Refuse(s, 500)
    else if Bytes(s, DeletedOn(b, DAYS_90)) > FILE_TOTAL_MAX_SIZE then Refuse(s, 413)
    else Commit(BoardServices.Reinstate(s, b, DAYS_90))
  }

  /** Neither the quota nor the board's deletion is looked at. */
  function RestoreFile(s: State, i: nat): Outcome {
    if i !in s.files || s.files[i].deletedAt.Never? then Refuse(s, 404)
    else if !Within(s.files[i].deletedAt, DAYS_90, s.now) then Refuse(s, 403)
    else Commit(B.Recount(s.(files := RestoreOneFile(s.files, i)), s.files[i].board))
  }

  function RestoreAllFiles(s: State, b: nat): Outcome {
    if !BoardActive(s, b) then Refuse(s, 404)
    else if !FileServices.HasDeletedFile(s, b) then Refuse(s, 404)
    else
      var restorable := Bytes(s, DeletedOn(b, DAYS_90));
      if restorable == 0 then Refuse(s, 404)
      else if ActiveBytes(s, b) + restorable > FILE_TOTAL_MAX_SIZE then Refuse(s, 413)
      else Commit(B.Recount(s.(files := AdminRestoreAllRestorableFiles(s.files, b, s.now)), b))
  }

  // ---------- the services ----------

  method AdminUserBanServices(db: Database, u: nat) returns (reply: Reply)
    modifies db
    ensures Outcome(db.Snapshot(), reply) == Ban(old(db.Snapshot()), u)
  {
    if u !in db.users {
      return Error(404);
    }
    var count := db.users[u].banCount;
    if count == 3 {
      db.users := U.SoftDeleteUser(db.users, AdminScheduled, u, db.now);
      db.users := U.AdminUser4BanSettings(db.users, u);
      return Done;
    }
    if count > 3 {
      return Declined;
    }
    var days := 5;
    if count == 0 {
      days := 1;
    } else if count == 1 {
      days := 3;
    }
    db.users := U.AdminBan(db.users, u, days, db.now);
    return Done;
  }

  method AdminUserUnbanServices(db: Database, u: nat) returns (reply: Reply)
    modifies db
    ensures Outcome(db.Snapshot(), reply) == Unban(old(db.Snapshot()), u)
  {
    if u !in db.users {
      return Error(404);
    }
    if db.users[u].banCount == 0 {
      return Error(400);
    }
    db.users := U.AdminUnban(db.users, u);
    return Done;
  }

  method AdminDeleteUserServices(db: Database, u: nat, option: DeleteOption) returns (reply: Reply)
    modifies db
    ensures Outcome(db.Snapshot(), reply) == DeleteUser(old(db.Snapshot()), u, option)
  {
    if option.Immediate? {
      if u !in db.users {
        return Error(404);
      }
      db.users := U.HardDeleteUser(db.users, u, db.now);
      db.files := HardDeleteAllUserFiles(db.files, db.boards, u);
    } else {
      if !LoggedIn(db.Snapshot(), u) {
        return Error(404);
      }
      db.users := U.SoftDeleteUser(db.users, if option.Scheduled? then AdminScheduled else AdminRetain, u, db.now);
      db.files := SoftDeleteAllUserFiles(db.files, db.boards, UserCascade, u, db.now);
    }
    db.boards := B.UpdateAllUserBoardsTotalFsize(db.boards, 0, u);
    return Done;
  }

  method AdminDeleteBoardsServices(db: Database, b: nat, option: DeleteOption) returns (reply: Reply)
    modifies db
    ensures Outcome(db.Snapshot(), reply) == DeleteBoard(old(db.Snapshot()), b, option)
  {
    if option.Immediate? {
      if b !in db.boards {
        return Error(404);
      }
      db.files := HardDeleteAllBoardFiles(db.files, b);
      db.boards := db.boards - {b};
    } else {
      if !BoardActive(db.Snapshot(), b) {
        return Error(404);
      }
      db.boards := B.SoftDeleteBoard(db.boards, if option.Scheduled? then AdminScheduled else AdminRetain, b, db.now);
      db.files := SoftDeleteAllBoardFiles(db.files, BoardCascade, b, db.now);
    }
    return Done;
  }

  method AdminDeleteOneFileServices(db: Database, i: nat, option: FileDeleteOption) returns (reply: Reply)
    modifies db
    ensures Outcome(db.Snapshot(), reply) == DeleteFile(old(db.Snapshot()), i, option)
  {
    if i !in db.files || (option.FileScheduled? && db.files[i].deletedAt.At?) {
      return Error(404);
    }
    var b := db.files[i].board;
    if option.FileScheduled? {
      db.files := SoftDeleteOneFile(db.files, AdminScheduled, i, db.now);
    } else {
      db.files := HardDeleteOneFile(db.files, i);
    }
    db.boards := B.UpdateTotalBoardFsize(db.boards, ActiveBytes(db.Snapshot(), b), b);
    return Done;
  }

  method AdminDeleteAllBoardFilesServices(db: Database, b: nat, option: FileDeleteOption) returns (reply: Reply)
    modifies db
    ensures Outcome(db.Snapshot(), reply) == DeleteAllFiles(old(db.Snapshot()), b, option)
  {
    if b !in db.boards {
      return Error(404);
    }
    if option.FileScheduled? {
      db.files := SoftDeleteAllBoardFiles(db.files, AdminScheduled, b, db.now);
    } else {
      db.files := HardDeleteAllBoardFiles(db.files, b);
    }
    return Done;
  }

  method AdminRestoreUserServices(db: Database, u: nat) returns (reply: Reply)
    modifies db
    ensures Outcome(db.Snapshot(), reply) == RestoreUser(old(db.Snapshot()), u)
  {
    if u !in db.users || db.users[u].deletedAt.Never? {
      return Error(404);
    }
    if db.now - db.users[u].deletedAt.time > DAYS_90 {
      return Error(403);
    }
    if UserServices.Exceeds(db.Snapshot(), u) {
      return Error(400);
    }
    db.users := U.RestoreUserData(db.users, db.users[u].id);
    db.files := RestoreAllUserFiles(db.files, db.boards, u, DAYS_90, db.now);
    db.boards := B.RecalculateAllUserBoardsTotalFsize(db.Snapshot(), u);
    return Done;
  }

  method AdminRestoreBoardServices(db: Database, b: nat) returns (reply: Reply)
    modifies db
    ensures Outcome(db.Snapshot(), reply) == RestoreBoard(old(db.Snapshot()), b)
  {
    if b !in db.boards || db.boards[b].deletedAt.Never? {
      return Error(404);
    }
    if db.now - db.boards[b].deletedAt.time > DAYS_90 {
      return Error(403);
    }
    if !Any(db.Snapshot(), DeletedOn(b, DAYS_90)) {
      return Error(500);
    }
    if Bytes(db.Snapshot(), DeletedOn(b, DAYS_90)) > FILE_TOTAL_MAX_SIZE {
      return Error(413);
    }
    db.boards := B.RestoreBoard(db.boards, b);
    db.files := RestoreCascadeBoardFiles(db.files, b, DAYS_90, db.now);
    db.boards := B.UpdateTotalBoardFsize(db.boards, ActiveBytes(db.Snapshot(), b), b);
    return Done;
  }

  method AdminRestoreFileServices(db: Database, i: nat) returns (reply: Reply)
    modifies db
    ensures Outcome(db.Snapshot(), reply) == RestoreFile(old(db.Snapshot()), i)
  {
    if i !in db.files || db.files[i].deletedAt.Never? {
      return Error(404);
    }
    if db.now - db.files[i].deletedAt.time > DAYS_90 {
      return Error(403);
    }
    var b := db.files[i].board;
    db.files := RestoreOneFile(db.files, i);
    db.boards := B.UpdateTotalBoardFsize(db.boards, ActiveBytes(db.Snapshot(), b), b);
    return Done;
  }

  method AdminRestoreAllFilesServices(db: Database, b: nat) returns (reply: Reply)
    modifies db
    ensures Outcome(db.Snapshot(), reply) == RestoreAllFiles(old(db.Snapshot()), b)
  {
    if !BoardActive(db.Snapshot(), b) {
      return Error(404);
    }
    if !FileServices.HasDeletedFile(db.Snapshot(), b) {
      return Error(404);
    }
    var total := ActiveBytes(db.Snapshot(), b);
    var restorable := Bytes(db.Snapshot(), DeletedOn(b, DAYS_90));
    if restorable == 0 {
      return Error(404);
    }
    if total + restorable > FILE_TOTAL_MAX_SIZE {
      return Error(413);
    }
    db.files := AdminRestoreAllRestorableFiles(db.files, b, db.now);
    db.boards := B.UpdateTotalBoardFsize(db.boards, ActiveBytes(db.Snapshot(), b), b);
    return Done;
  }
}
